/** The Hashie::Mash operations the client uses, including its own `try` patch. */
module Mash {
  import opened Outcomes
  import opened RubyHash

  /** Mash#[] (and Hash#[] on a parsed response): the value under `name`, or nil. */
  function Fetch(mash: map<string, Value>, name: string): Value
  {
    if name in mash then mash[name] else Null
  }

  /** Mash#try as the client patches it: the value under `key.to_s` when that key is
      present, the receiver itself otherwise. A value can never equal the hash holding it,
      so comparing the answer with the receiver tells exactly whether the key was found. */
  function Try(mash: map<string, Value>, key: Key): (r: Value)
    ensures key.name in mash ==> r == mash[key.name]
    ensures r == Obj(mash) <==> key.name !in mash
  {
    if key.name in mash then mash[key.name] else Obj(mash)
  }

  /** `v.empty?`: defined on strings, arrays and hashes; anything else has no such method. */
  function IsEmpty(v: Value): (r: Option<bool>)
    ensures r.Some? <==> v.Str? || v.Arr? || v.Obj?
    ensures r == Some(true) <==> v in {Str([]), Arr([]), Obj(map[])}
  {
    match v
    case Str(s) => Some(|s| == 0)
    case Arr(items) => Some(|items| == 0)
    case Obj(fields) => Some(|fields| == 0)
    case _ => None
  }

  /** Hashie::Mash.new(v): nil or false gives an empty Mash, a hash gives a Mash of the same
      entries, and anything else cannot be converted. */
  function MashNew(v: Value): (r: Outcome<Value>)
    ensures r.Returned? <==> !Truthy(v) || v.Obj?
    ensures r.Returned? ==> r.value.Obj? && (v.Obj? ==> r.value == v) && (!Truthy(v) ==> r.value == Obj(map[]))
  {
    match v
    case Obj(_) => Returned(v)
    case _ => if Truthy(v) then Raised(MashConversionError) else Returned(Obj(map[]))
  }
}
