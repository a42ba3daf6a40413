/** Plain JavaScript objects as the editor sees them.

    A table row and the editor's bound record are plain objects with string keys
    (`{}` when nothing is bound). Every value is modelled by its text, which is what
    the form inputs and the title template show; a missing key reads as `undefined`.
 */
module Records {

  datatype Option<+T> = None | Some(value: T)

  /** A plain object: its own keys and the text of their values. */
  type Record = map<string, string>

  /** The object `{}`. */
  const EmptyRecord: Record := map[]

  /** Property access `o.key`: `None` stands for `undefined`. */
  function Get(o: Record, key: string): (v: Option<string>)
    ensures v.Some? <==> key in o
    ensures v.Some? ==> v.value == o[key]
  {
    if key in o then Some(o[key]) else None
  }

  /** What a template literal interpolates for a value: `undefined` prints as the word. */
  function Interpolate(v: Option<string>): string
  {
    match v
    case Some(s) => s
    case None => "undefined"
  }

  /** `Object.keys(o).length > 0`: the object is not `{}`. */
  predicate HasKeys(o: Record)
    ensures HasKeys(o) <==> o != EmptyRecord
  {
    |o| > 0
  }
}
