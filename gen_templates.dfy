/**
 * `cmd/gen/templates.go`: the text transforms the code generator's
 * templates call, from Bot API names to Go identifiers and types. A Go
 * panic (indexing an empty string) is `None`.
 */
module Templates {
  import opened Wrappers
  import opened GoStrings

  /** `isTitle`: an ASCII capital. */
  predicate IsTitle(b: char) {
    'A' <= b <= 'Z'
  }

  // ---- toTitle ----

  /**
   * The `strings.Map` pass of `toTitle` with its `nextTitle` flag: every `_`
   * is dropped and sets the flag, a character met with the flag set is
   * upper-cased and clears it, and any other character is kept.
   */
  function MapTitle(s: string, next: bool): string
    decreases |s|
  {
    if s == "" then ""
    else if s[0] == '_' then MapTitle(s[1..], true)
    else if next then [ToUpper(s[0])] + MapTitle(s[1..], false)
    else [s[0]] + MapTitle(s[1..], false)
  }

  /** The flag after the pass over s. */
  function FlagAfter(s: string, next: bool): bool
    decreases |s|
  {
    if s == "" then next else FlagAfter(s[1..], s[0] == '_')
  }

  /** The pass runs over a concatenation piece by piece, the flag carried across. */
  lemma {:induction false} MapTitleAppend(a: string, b: string, next: bool)
    ensures MapTitle(a + b, next) == MapTitle(a, next) + MapTitle(b, FlagAfter(a, next))
    decreases |a|
  {
    if a == "" {
      assert a + b == b;
    } else {
      assert (a + b)[1..] == a[1..] + b;
      MapTitleAppend(a[1..], b, a[0] == '_');
    }
  }

  /** The result never holds `_`, and has one character for each other character of s. */
  lemma {:induction false} MapTitleShape(s: string, next: bool)
    ensures '_' !in MapTitle(s, next)
    ensures |MapTitle(s, next)| == |s| - multiset(s)['_']
    decreases |s|
  {
    if s != "" {
      assert s == [s[0]] + s[1..];
      assert multiset(s) == multiset{s[0]} + multiset(s[1..]);
      MapTitleShape(s[1..], s[0] == '_');
    }
  }

  /** An underscore restarts capitalisation: the words of a snake-case name are capitalised independently. */
  lemma UnderscoreCapitalises(a: string, b: string, next: bool)
    ensures MapTitle(a + "_" + b, next) == MapTitle(a, next) + MapTitle(b, true)
  {
    assert a + "_" + b == a + ("_" + b);
    MapTitleAppend(a, "_" + b, next);
    assert ("_" + b)[0] == '_' && ("_" + b)[1..] == b;
  }

  /** A word without `_` met with the flag set gets its first character upper-cased and keeps the rest. */
  lemma {:induction false} MapTitleWord(w: string)
    requires w != "" && '_' !in w
    ensures MapTitle(w, true) == [ToUpper(w[0])] + w[1..]
  {
    MapTitleKeeps(w[1..]);
  }

  lemma {:induction false} MapTitleKeeps(w: string)
    requires '_' !in w
    ensures MapTitle(w, false) == w
    decreases |w|
  {
    if w != "" {
      MapTitleKeeps(w[1..]);
    }
  }

  /** `toTitle`: the two whole-word abbreviations, the `_id` and `_ids` suffix rewrites, then the pass. */
  function TitleOf(s: string): string {
    if s == "id" then "ID"
    else if s == "url" then "URL"
    else
      var s1 := if HasSuffix(s, "_id") then s[..|s| - 3] + "ID" else s;
      var s2 := if HasSuffix(s1, "_ids") then s1[..|s1| - 4] + "IDs" else s1;
      MapTitle(s2, true)
  }

  /** The pass of `toTitle` as the loop `strings.Map` runs, threading the flag. */
  method MapTitleLoop(t: string) returns (r: string)
    ensures r == MapTitle(t, true)
  {
    var nextTitle := true;
    r := "";
    for i := 0 to |t|
      invariant r + MapTitle(t[i..], nextTitle) == MapTitle(t, true)
    {
      assert t[i..][0] == t[i] && t[i..][1..] == t[i + 1..];
      if t[i] == '_' {
        nextTitle := true;
      } else if nextTitle {
        nextTitle := false;
        r := r + [ToUpper(t[i])];
      } else {
        r := r + [t[i]];
      }
    }
    assert t[|t|..] == "";
  }

  /** `toTitle`: the abbreviations, the suffix rewrites, then the pass. */
  method ToTitle(s: string) returns (r: string)
    ensures r == TitleOf(s)
  {
    if s == "id" {
      return "ID";
    }
    if s == "url" {
      return "URL";
    }
    var t := s;
    if HasSuffix(t, "_id") {
      t := t[..|t| - 3] + "ID";
    }
    if HasSuffix(t, "_ids") {
      t := t[..|t| - 4] + "IDs";
    }
    r := MapTitleLoop(t);
  }

  /** A string whose last character differs from the suffix's last character does not end with it. */
  lemma NotSuffixByLast(x: string, suffix: string)
    requires x != "" && suffix != "" && x[|x| - 1] != suffix[|suffix| - 1]
    ensures !HasSuffix(x, suffix)
  {
    if |suffix| <= |x| {
      assert x[|x| - |suffix|..][|suffix| - 1] == x[|x| - 1];
    }
  }

  /** `toTitle` of a name ending in `_id`: the rest converted, then `ID`. */
  lemma TitleOfIdSuffix(p: string)
    ensures TitleOf(p + "_id") == MapTitle(p, true) + "ID"
  {
    var s := p + "_id";
    assert s[|s| - 3..] == "_id" && s[..|s| - 3] == p;
    assert s != "id" && s != "url" by {
      assert s[|s| - 3] == '_';
    }
    var t := p + "ID";
    assert t[|t| - 1] == 'D';
    NotSuffixByLast(t, "_ids");
    MapTitleAppend(p, "ID", true);
  }

  /** `toTitle` of a name ending in `_ids`: the rest converted, then `IDs`. */
  lemma TitleOfIdsSuffix(p: string)
    ensures TitleOf(p + "_ids") == MapTitle(p, true) + "IDs"
  {
    var s := p + "_ids";
    assert s[|s| - 1] == 's';
    NotSuffixByLast(s, "_id");
    assert s != "id" && s != "url" by {
      assert |s| >= 4;
    }
    assert s[|s| - 4..] == "_ids" && s[..|s| - 4] == p;
    assert TitleOf(s) == MapTitle(p + "IDs", true);
    IDsKept(FlagAfter(p, true));
    MapTitleAppend(p, "IDs", true);
  }

  /** The rewritten suffix passes through unchanged, whatever the flag. */
  lemma IDsKept(next: bool)
    ensures MapTitle("IDs", next) == "IDs"
  {
    MapTitleKeeps("Ds");
    assert "IDs"[1..] == "Ds";
  }

  // ---- toType ----

  const ArrayOf: string := "Array of "

  /** The name left after every leading `Array of ` is stripped. */
  function StripArrays(s: string): (r: string)
    ensures !(ArrayOf <= r)
    decreases |s|
  {
    if ArrayOf <= s then StripArrays(s[|ArrayOf|..]) else s
  }

  /** The number of leading `Array of `. */
  function ArrayDepth(s: string): nat
    decreases |s|
  {
    if ArrayOf <= s then 1 + ArrayDepth(s[|ArrayOf|..]) else 0
  }

  /** n nested `Array of ` around a base name: the base and its depth come back. */
  lemma {:induction false} StripOfNested(n: nat, base: string)
    requires !(ArrayOf <= base)
    ensures StripArrays(Repeat(ArrayOf, n) + base) == base
    ensures ArrayDepth(Repeat(ArrayOf, n) + base) == n
  {
    if n > 0 {
      var s := Repeat(ArrayOf, n) + base;
      assert s == ArrayOf + (Repeat(ArrayOf, n - 1) + base);
      assert s[|ArrayOf|..] == Repeat(ArrayOf, n - 1) + base;
      StripOfNested(n - 1, base);
    }
  }

  /** The fixed table of `toType`, types then methods. */
  const TypeMapping: map<string, string> := map[
    "Integer" := "int64",
    "String" := "string",
    "Integer or String" := "string",
    "Boolean" := "bool",
    "True" := "bool",
    "Float" := "float64",
    "InlineKeyboardMarkup or ReplyKeyboardMarkup or ReplyKeyboardRemove or ForceReply" := "ReplyMarkup",
    "InputFile or String" := "InputFile",
    "InputMediaAudio, InputMediaDocument, InputMediaPhoto and InputMediaVideo" := "InputMedia",
    "Int" := "int64"
  ]

  /** A base name through the table; a name the table does not hold is kept. */
  function MapBase(name: string): (r: string)
    ensures name !in TypeMapping ==> r == name
    ensures name in TypeMapping ==> r == TypeMapping[name]
  {
    if name in TypeMapping then TypeMapping[name] else name
  }

  /** No table entry maps to the empty string. */
  lemma MappingNonEmpty(name: string)
    requires name in TypeMapping
    ensures TypeMapping[name] != ""
  {
  }

  /**
   * `toType`: one `[]` per `Array of `, the base name through the table,
   * and a `*` for an optional upper-case type outside an array. An empty
   * base name panics on `s[0]`.
   */
  function GoType(s: string, required: bool): (r: Option<string>)
    ensures r.None? <==> StripArrays(s) == ""
    ensures r.Some? ==> r.value != ""
  {
    var base := StripArrays(s);
    var depth := ArrayDepth(s);
    if base == "" then None
    else
      var m := MapBase(base);
      assert m != "" by {
        if base in TypeMapping {
          MappingNonEmpty(base);
        }
      }
      var t := if IsTitle(m[0]) && !required && depth == 0 then "*" + m else m;
      Some(if depth == 0 then t else Repeat("[]", depth) + t)
  }

  /** The partner of `GoType`, by the shape of the name: nested arrays are slices of the mapped base, a pointer appearing only outside arrays. */
  lemma GoTypeOfNested(n: nat, base: string, required: bool)
    requires base != "" && !(ArrayOf <= base)
    ensures var m := MapBase(base);
      GoType(Repeat(ArrayOf, n) + base, required)
        == Some(if n == 0 then (if IsTitle(m[0]) && !required then "*" + m else m) else Repeat("[]", n) + m)
  {
    StripOfNested(n, base);
  }

  /** `toType` as its loop: strip the `Array of ` prefixes counting them, then map and decorate. */
  method ToType(s: string, required: bool) returns (r: Option<string>)
    ensures r == GoType(s, required)
  {
    var t := s;
    var depth := 0;
    while ArrayOf <= t
      invariant StripArrays(t) == StripArrays(s)
      invariant depth + ArrayDepth(t) == ArrayDepth(s)
      decreases |t|
    {
      depth := depth + 1;
      t := TrimPrefix(t, ArrayOf);
    }
    t := MapBase(t);
    if t == "" {
      return None;
    }
    if IsTitle(t[0]) && !required && depth == 0 {
      t := "*" + t;
    }
    if depth == 0 {
      return Some(t);
    }
    return Some(Repeat("[]", depth) + t);
  }

  // ---- toMake, toLowerFirst ----

  /**
   * `toMake`: the Go statements that allocate a result of type s. A slice
   * is made with capacity 100 and referenced; a lower-case (built-in) type
   * is referenced in place; any other type is allocated with `new`.
   */
  function MakeCode(s: string, ret: string, ref: string): (r: Option<string>)
    ensures r.None? <==> StripArrays(s) == ""
    ensures r.Some? && ArrayDepth(s) > 0 ==>
      r.value == ret + " = make(" + GoType(s, true).value + ", 0, 100)\n" + ref + " := &" + ret
    ensures r.Some? && ArrayDepth(s) == 0 && StripArrays(s)[0] != '[' && !IsTitle(MapBase(s)[0]) ==>
      r.value == ref + " := &" + ret
    ensures r.Some? && ArrayDepth(s) == 0 && IsTitle(MapBase(s)[0]) ==>
      r.value == ref + " := new(" + MapBase(s) + ")"
  {
    var typ := GoType(s, true);
    if typ.None? then None
    else if typ.value == "" then Some("!!!" + s)
    else if typ.value[0] == '[' then Some(ret + " = make(" + typ.value + ", 0, 100)\n" + ref + " := &" + ret)
    else if !IsTitle(typ.value[0]) then Some(ref + " := &" + ret)
    else Some(ref + " := new(" + typ.value + ")")
  }

  /** `toLowerFirst`: only the first character is lower-cased; the empty string panics, hence the precondition. */
  function LowerFirst(s: string): (r: string)
    requires s != ""
    ensures |r| == |s| && r[1..] == s[1..]
    ensures r[0] == ToLower(s[0]) && !IsTitle(r[0])
  {
    [ToLower(s[0])] + s[1..]
  }

  /** Lower-casing the first character twice is lower-casing it once, and it undoes the capital `toTitle` puts on a word. */
  lemma LowerFirstOfTitle(w: string)
    requires w != "" && '_' !in w && 'a' <= w[0] <= 'z'
    ensures LowerFirst(MapTitle(w, true)) == w
    ensures LowerFirst(LowerFirst(w)) == LowerFirst(w)
  {
    MapTitleWord(w);
  }
}
