/** `helpers.go`: argument and payload extraction, and the largest photo. */
module Helpers {
  import opened Wrappers
  import opened GoStrings
  import opened Types

  /**
   * `ExtractArgs`: the whitespace-separated fields after the first one; nil
   * (`None`) when the text has no field at all, and an empty, non-nil list
   * when it has only the first.
   */
  function ExtractArgs(text: string): (r: Option<seq<string>>)
    ensures r.None? <==> AllSpace(text)
    ensures r.Some? ==> |Fields(text)| == |r.value| + 1 && Fields(text)[1..] == r.value
  {
    FieldsEmpty(text);
    var fields := Fields(text);
    if |fields| == 0 then None else Some(fields[1..])
  }

  /** `ExtractPayload`: the text after the first space, or "" when there is none. */
  function ExtractPayload(text: string): (r: string)
    ensures ' ' !in text ==> r == ""
    ensures ' ' in text ==> r == text[IndexOf(text, ' ') + 1..]
  {
    Cut(text, ' ').after
  }

  /** A command followed by space-free words reads back as exactly those words. */
  lemma ExtractArgsOfJoin(command: string, args: seq<string>)
    requires command != "" && NoSpace(command)
    requires forall i :: 0 <= i < |args| ==> args[i] != "" && NoSpace(args[i])
    ensures ExtractArgs(if |args| == 0 then command else command + " " + Join(args, " ")) == Some(args)
  {
    var ws := [command] + args;
    assert ws[1..] == args;
    FieldsOfJoin(ws);
    if |args| == 0 {
      assert Join(ws, " ") == command;
    } else {
      assert Join(ws, " ") == command + " " + Join(args, " ");
    }
  }

  /** The text after the first space of `before + " " + after`, when `before` has no space, is `after`. */
  lemma ExtractPayloadOfSplit(before: string, after: string)
    requires ' ' !in before
    ensures ExtractPayload(before + " " + after) == after
  {
    CutOfSplit(before, ' ', after);
  }

  /**
   * `PhotoBiggest`: the first photo of strictly greatest width; the zero
   * value when no width is positive (an empty list included).
   */
  method PhotoBiggest(list: seq<PhotoSize>) returns (v: PhotoSize)
    ensures forall i :: 0 <= i < |list| ==> list[i].width <= v.width
    ensures (forall i :: 0 <= i < |list| ==> list[i].width <= 0) ==> v == ZeroPhotoSize
    ensures (exists i :: 0 <= i < |list| && list[i].width > 0) ==>
      exists k :: 0 <= k < |list| && v == list[k] && forall j :: 0 <= j < k ==> list[j].width < v.width
  {
    v := ZeroPhotoSize;
    ghost var k := -1;
    for i := 0 to |list|
      invariant -1 <= k < i
      invariant forall j :: 0 <= j < i ==> list[j].width <= v.width
      invariant k == -1 ==> v == ZeroPhotoSize
      invariant k >= 0 ==> v == list[k] && v.width > 0 && forall j :: 0 <= j < k ==> list[j].width < v.width
    {
      if list[i].width > v.width {
        v := list[i];
        k := i;
      }
    }
  }
}
