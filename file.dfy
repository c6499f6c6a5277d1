/** `file.go`: the download link of a stored file. */
module FileLinks {
  import opened GoStrings

  /**
   * `buildFileLink`: `https://<host>/file/bot<token>/`, then `test/` in test
   * mode, then the file path with one leading `/` removed.
   */
  function BuildFileLink(host: string, token: string, test: bool, filePath: string): (link: string)
    ensures var prefix := "https://" + host + "/file/bot" + token + "/" + (if test then "test/" else "");
      prefix <= link && link[|prefix|..] == TrimPrefix(filePath, "/")
  {
    var link := "https://" + host + "/file/bot" + token + "/";
    var link := if test then link + "test/" else link;
    link + TrimPrefix(filePath, "/")
  }

  /** A path without a leading `/` is appended as it is; one leading `/` is dropped, and only one. */
  lemma FileLinkPath(host: string, token: string, test: bool, filePath: string)
    ensures var prefix := "https://" + host + "/file/bot" + token + "/" + (if test then "test/" else "");
      (!("/" <= filePath) ==> BuildFileLink(host, token, test, filePath) == prefix + filePath)
      && ("/" <= filePath ==> BuildFileLink(host, token, test, filePath) == prefix + filePath[1..])
  {
    var prefix := "https://" + host + "/file/bot" + token + "/" + (if test then "test/" else "");
    var link := BuildFileLink(host, token, test, filePath);
    assert link == prefix + link[|prefix|..];
  }
}
