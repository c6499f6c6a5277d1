/**
 * `cmd/gen/main.go`: the per-method and per-field questions the templates
 * ask. A Go panic (an index past the end, `toType` of an empty name) is
 * `None`.
 */
module Generator {
  import opened Wrappers
  import opened GoStrings
  import opened Templates
  import opened Parse

  /** A documented type: its fields, in table order. */
  datatype TypeInfo = TypeInfo(name: string, desc: string, fields: seq<Field>, subtypes: seq<string>)

  /** The zero `Type{}` a missing map key yields. */
  const MissingType: TypeInfo := TypeInfo("", "", [], [])

  /** `types[name]`, with Go's zero value for a missing key. */
  function Lookup(types: map<string, TypeInfo>, name: string): (t: TypeInfo)
    ensures name !in types ==> t == MissingType
  {
    if name in types then types[name] else MissingType
  }

  /** `Method.Multipart`: some parameter is a file upload. */
  method Multipart(params: seq<Field>) returns (multipart: bool)
    ensures multipart <==> exists i :: 0 <= i < |params| && params[i].typ == "InputFile"
  {
    for i := 0 to |params|
      invariant forall j :: 0 <= j < i ==> params[j].typ != "InputFile"
    {
      if params[i].typ == "InputFile" {
        return true;
      }
    }
    return false;
  }

  /** The code `AutoFillCode` emits: nothing, a fixed expression, or a closure reading one field of the update. */
  datatype Code = NoCode | Expr(text: string) | UpdateAccessor(field: string)

  /** `slices.ContainsFunc(fields, f.Name == name)`. */
  predicate HasField(t: TypeInfo, name: string) {
    exists i :: 0 <= i < |t.fields| && t.fields[i].name == name
  }

  /**
   * `Field.AutoFillCode`: how a generated context method fills a parameter
   * from the current update.
   */
  function AutoFillCode(field: Field, types: map<string, TypeInfo>): (r: Option<Code>)
    // `chat_id` reads the chat: as its identifier string when the parameter is a string, else as its id
    ensures field.name == "chat_id" ==>
      && (r.None? <==> StripArrays(field.typ) == "")
      && (r.Some? ==> r.value == Expr(if GoType(field.typ, field.isRequired) == Some("string")
                                      then "ctx.Chat().Identifier()" else "ctx.Chat().ID"))
    // a name without `_id` is never filled in
    ensures field.name != "chat_id" && !CutString(field.name, "_id").found ==> r == Some(NoCode)
    // an accessor reads the update field named by the part before `_id`, whose type has an `id`, and every such field is read
    ensures field.name != "chat_id" && CutString(field.name, "_id").found ==>
      var before := CutString(field.name, "_id").before;
      ((r.Some? && r.value.UpdateAccessor?)
        <==> HasField(Lookup(types, "Update"), before) && HasField(Lookup(types, TitleOf(before)), "id"))
    ensures r.Some? && r.value.UpdateAccessor? ==> r.value.field == TitleOf(CutString(field.name, "_id").before)
    // an update field whose type has no `id` is not filled in
    ensures field.name != "chat_id" && CutString(field.name, "_id").found ==>
      var before := CutString(field.name, "_id").before;
      HasField(Lookup(types, "Update"), before) && !HasField(Lookup(types, TitleOf(before)), "id") ==> r == Some(NoCode)
    // without such an update field only `callback_query_id` is filled, by the name of the fourteenth update field,
    // and it panics when the update has too few fields
    ensures (field.name != "chat_id" && CutString(field.name, "_id").found
             && !HasField(Lookup(types, "Update"), CutString(field.name, "_id").before)) ==>
      var fields := Lookup(types, "Update").fields;
      r == if field.name != "callback_query_id" then Some(NoCode)
           else if |fields| > 13 then Some(Expr(fields[13].name)) else None
    // so the only panics are an empty `chat_id` type and that index
    ensures r.None? && field.name != "chat_id" ==>
      && field.name == "callback_query_id"
      && !HasField(Lookup(types, "Update"), CutString(field.name, "_id").before)
      && |Lookup(types, "Update").fields| <= 13
  {
    if field.name == "chat_id" then
      match GoType(field.typ, field.isRequired)
      case None => None
      case Some(t) => Some(if t == "string" then Expr("ctx.Chat().Identifier()") else Expr("ctx.Chat().ID"))
    else
      var c := CutString(field.name, "_id");
      if !c.found then Some(NoCode)
      else
        var update := Lookup(types, "Update");
        if !HasField(update, c.before) then
          if field.name == "callback_query_id" then
            if |update.fields| > 13 then Some(Expr(update.fields[13].name)) else None
          else Some(NoCode)
        else if !HasField(Lookup(types, TitleOf(c.before)), "id") then Some(NoCode)
        else Some(UpdateAccessor(TitleOf(c.before)))
  }

  /**
   * A field `<x>_id` whose prefix names an update field of a type with an
   * `id` reads that id from the update: `callback_query_id` with a
   * `callback_query` update field and a `CallbackQuery` type that has an
   * `id` is filled from `ctx.update.CallbackQuery`.
   */
  lemma UpdateFieldFill(x: string, types: map<string, TypeInfo>)
    requires !Contains(x, "_id") && x != "chat"
    requires HasField(Lookup(types, "Update"), x)
    requires HasField(Lookup(types, TitleOf(x)), "id")
    ensures AutoFillCode(Field(x + "_id", "", "", false, ""), types) == Some(UpdateAccessor(TitleOf(x)))
  {
    CutBeforeSuffix(x, "_id");
    assert "_id"[1] != '_' && "_id"[2] != '_';
    SuffixInjective(x, "chat", "_id");
    var c := CutString(x + "_id", "_id");
    assert c.found && c.before == x;
  }

  /** Appending the same suffix keeps different strings different. */
  lemma SuffixInjective(x: string, y: string, suffix: string)
    requires x != y
    ensures x + suffix != y + suffix
  {
    if |x| == |y| {
      var i :| 0 <= i < |x| && x[i] != y[i];
      assert (x + suffix)[i] == x[i];
      assert (y + suffix)[i] == y[i];
    }
  }
}
