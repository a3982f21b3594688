/** The part of the JSON library the servers rely on. */
module Json {
  import opened Common

  datatype Json =
    | Null
    | Bool(b: bool)
    | Number(n: int)
    | Str(text: string)
    | Array(items: seq<Json>)
    | Object(fields: map<string, Json>)

  /**
    * Serialisation. `parse` gives None where the library raises a parse error.
    * JSON values are countable, so lawful codecs exist.
    */
  datatype Codec = Codec(dump: Json -> seq<byte>, parse: seq<byte> -> Option<Json>) {
    ghost predicate Lawful() {
      forall j: Json :: dump(j) != [] && parse(dump(j)) == Some(j)
    }
  }

  /** `j[key] = v`: null turns into an object, any other non-object raises a type error (None). */
  function Put(j: Json, key: string, v: Json): Option<Json> {
    match j
    case Null => Some(Object(map[key := v]))
    case Object(fields) => Some(Object(fields[key := v]))
    case _ => None
  }

  /** `j.value(key, 0u)`: zero when absent, reduced to 32 bits, None for a type error. */
  function UInt32(j: Json, key: string): Option<nat> {
    if !j.Object? then None
    else if key !in j.fields then Some(0)
    else match j.fields[key]
      case Number(n) => Some(n % 0x1_0000_0000)
      case Bool(b) => Some(if b then 1 else 0)
      case _ => None
  }

  /** Every size of 32 bits is read as it was written, longer numbers lose what lies above. */
  lemma UInt32Exactly(j: Json, key: string, n: int)
    ensures j.Object? && key in j.fields && j.fields[key] == Number(n) ==>
              && UInt32(j, key).Some? && UInt32(j, key).value < 0x1_0000_0000
              && (UInt32(j, key).value - n) % 0x1_0000_0000 == 0
              && (0 <= n < 0x1_0000_0000 ==> UInt32(j, key) == Some(n))
    ensures j.Object? && key !in j.fields ==> UInt32(j, key) == Some(0)
    ensures !j.Object? || (key in j.fields && !j.fields[key].Number? && !j.fields[key].Bool?) ==> UInt32(j, key) == None
  {
  }

  /** `j.value(key, number)` raises no type error. */
  predicate Numeric(j: Json, key: string) {
    j.Object? && (key in j.fields ==> j.fields[key].Number? || j.fields[key].Bool?)
  }

  /** `j.value(key, "")`: empty when absent, None for a type error. */
  function Text(j: Json, key: string): Option<string> {
    if !j.Object? then None
    else if key !in j.fields then Some("")
    else if j.fields[key].Str? then Some(j.fields[key].text)
    else None
  }

  /** What the listener adds to every event of the Sub-Pi registered under `key`. */
  function Decorate(j: Json, key: string): Option<Json>
    requires |key| >= 6
  {
    match Put(j, "device_id", Str(key))
    case None => None
    case Some(k) => Put(k, "ip", Str(key[6..]))
  }

  /** Decoration sets two fields and leaves every other field alone. */
  lemma DecorateFields(j: Json, ip: string, name: string)
    ensures Decorate(j, Key(SubPi(ip))).Some? <==> j.Null? || j.Object?
    ensures j.Null? || j.Object? ==>
      var d := Decorate(j, Key(SubPi(ip))).value;
      && d.Object?
      && "ip" in d.fields && d.fields["ip"] == Str(ip)
      && "device_id" in d.fields && d.fields["device_id"] == Str(Key(SubPi(ip)))
      && (name != "ip" && name != "device_id" ==>
            (name in d.fields <==> j.Object? && name in j.fields)
            && (name in d.fields ==> d.fields[name] == j.fields[name]))
  {
    AddressOfKey(ip);
  }
}
