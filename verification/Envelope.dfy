/** The classification of a JSON-RPC message by the presence of `method` and `id`. */
module Envelope {
  import opened Prelude
  import opened Json

  datatype Id = NumId(n: int) | StrId(s: string)

  datatype Envelope = Envelope(id: Option<Id>, meth: Option<string>) {
    predicate IsNotification() { meth.Some? && id.None? }
    predicate IsRequest() { meth.Some? && id.Some? }
    predicate IsResponse() { meth.None? && id.Some? }
  }

  /** A numeric id counts only when it fits a signed 64-bit integer; null and every
      other shape is no id. */
  function ParseId(value: Option<Json>): Option<Id> {
    match value
    case Some(Num(_)) =>
      var n := AsI64(value);
      if n.Some? then Some(NumId(n.value)) else None
    case Some(Str(s)) => Some(StrId(s))
    case _ => None
  }

  /** None unless the body decodes to a JSON object. */
  function Parse(value: Option<Json>): Option<Envelope> {
    match value
    case Some(Obj(_)) => Some(Envelope(ParseId(Field(value, "id")), AsStr(Field(value, "method"))))
    case _ => None
  }

  /** The string id a body answers: it decodes to an object without a string method and
      with a string id. */
  function AnsweredId(value: Option<Json>): (id: Option<string>)
    ensures id.Some? ==> value.Some?
  {
    match Parse(value)
    case Some(env) =>
      if env.IsResponse() && env.id.value.StrId? then Some(env.id.value.s) else None
    case None => None
  }

  /** The string id a body asks under: it decodes to an object with both a string method
      and a string id. */
  function AskedId(value: Option<Json>): Option<string> {
    match Parse(value)
    case Some(env) =>
      if env.IsRequest() && env.id.value.StrId? then Some(env.id.value.s) else None
    case None => None
  }

  /** The method a body names, if it decodes to an object with a string method. */
  function MethodOf(value: Option<Json>): Option<string> {
    match Parse(value)
    case Some(env) => env.meth
    case None => None
  }

  /** Exactly which bodies answer a string id, and which ask under one: objects whose id is
      that string, without and with a string method. A number, null or any other id, and a
      method of another shape, do not count. */
  lemma StringIdsExactly(value: Option<Json>, x: string)
    ensures AnsweredId(value) == Some(x) <==>
      && value.Some? && value.value.Obj?
      && "id" in value.value.fields && value.value.fields["id"] == Str(x)
      && ("method" in value.value.fields ==> !value.value.fields["method"].Str?)
    ensures AskedId(value) == Some(x) <==>
      && value.Some? && value.value.Obj?
      && "id" in value.value.fields && value.value.fields["id"] == Str(x)
      && "method" in value.value.fields && value.value.fields["method"].Str?
  {
  }

  /** Exactly which method a body names, and which numeric id it has. */
  lemma MethodsExactly(value: Option<Json>, m: string, n: int)
    ensures MethodOf(value) == Some(m) <==>
      value.Some? && value.value.Obj? && "method" in value.value.fields && value.value.fields["method"] == Str(m)
    ensures Parse(value).Some? && Parse(value).value.id == Some(NumId(n)) <==>
      && value.Some? && value.value.Obj? && "id" in value.value.fields && value.value.fields["id"] == Num(n)
      && -0x8000_0000_0000_0000 <= n <= 0x7fff_ffff_ffff_ffff
  {
  }

  /** A body with an id or a method is exactly one of the three kinds, and no body both
      asks and answers. */
  lemma KindsAreDisjoint(value: Option<Json>)
    requires Parse(value).Some?
    ensures
      var env := Parse(value).value;
      && (env.IsRequest() ==> !env.IsResponse() && !env.IsNotification())
      && (env.IsResponse() ==> !env.IsNotification())
      && (env.id.Some? || env.meth.Some? <==> env.IsRequest() || env.IsResponse() || env.IsNotification())
    ensures AskedId(value).None? || AnsweredId(value).None?
  {
  }
}
