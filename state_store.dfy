/** The ioBroker state store as the presence script sees it: keyed slots that
    hold a value and the time ("lc", last change) at which the value last
    changed. */
module StateStore {
  import opened Numbers

  /** The per-person slots under `persons.<cleaned name>.`. */
  datatype Field = IsPresent | TimeLastLeave | TimeLastEntry | TimeMostRecent | OffsetEntryLeave

  /** The slots under the script's state path. A person's slots are addressed
      by the cleaned name, so two devices whose names clean to the same text
      share them, as they do in the source. */
  datatype Key =
    | Person(name: string, field: Field)
    | AnyonePresent
    | AllPresentPersonsCount
    | PresentPersonsString
    | PresentPersonsJson
    | PresentPersonsHtml
    | PresenceSimulationActive

  /** A state value; `VNull` is what reading a missing state yields. */
  datatype Value = VBool(b: bool) | VStr(s: string) | VNum(n: int) | VNull

  datatype Entry = Entry(val: Value, lc: int)

  type Store = map<Key, Entry>

  datatype Option<T> = None | Some(value: T)

  /** `getState(k).val`. */
  function ValOf(st: Store, k: Key): Value
  {
    if k in st then st[k].val else VNull
  }

  /** `getState(k).lc`; a missing state has none (`undefined`). */
  function LcOf(st: Store, k: Key): Option<int>
  {
    if k in st then Some(st[k].lc) else None
  }

  /** `setState(k, v)` at time `nowMs`, treated as taking effect at once: the
      value is replaced, and the last-change time moves to `nowMs` only when
      the value actually differs. */
  function Write(st: Store, k: Key, v: Value, nowMs: int): Store
  {
    st[k := if k in st && st[k].val == v then st[k] else Entry(v, nowMs)]
  }

  /** After a write the slot holds the new value; its last-change time moves
      to `nowMs` exactly when the value differs; every other slot is as it
      was. */
  lemma WriteMeaning(st: Store, k: Key, v: Value, nowMs: int)
    ensures var r := Write(st, k, v, nowMs);
      && r.Keys == st.Keys + {k}
      && ValOf(r, k) == v
      && (k in st && st[k].val == v ==> LcOf(r, k) == LcOf(st, k))
      && (!(k in st && st[k].val == v) ==> LcOf(r, k) == Some(nowMs))
      && (forall k' :: k' != k ==> ValOf(r, k') == ValOf(st, k') && LcOf(r, k') == LcOf(st, k'))
  {
  }

  /** Writing the value a slot already holds changes nothing. */
  lemma WriteSameValue(st: Store, k: Key, v: Value, nowMs: int)
    requires k in st && st[k].val == v
    ensures Write(st, k, v, nowMs) == st
  {
  }

  /** JavaScript truthiness of a value. */
  predicate Truthy(v: Value)
  {
    match v
    case VBool(b) => b
    case VStr(s) => s != ""
    case VNum(n) => n != 0
    case VNull => false
  }

  /** The text `'' + v` gives in a string concatenation. */
  function ValueText(v: Value): string
  {
    match v
    case VBool(b) => if b then "true" else "false"
    case VStr(s) => s
    case VNum(n) => NumberText(Finite(n))
    case VNull => "null"
  }

  /** White space that `JSON.stringify` leaves unescaped and the pattern `\s`
      then removes: the space and the Unicode space separators, line and
      paragraph separators and U+FEFF. Tab, line feed and the other control
      characters come out of `JSON.stringify` as escapes such as `\t`, which
      are not white space. */
  predicate StringifiedBlank(c: char)
  {
    || c == ' ' || c == '\U{A0}' || c == '\U{1680}'
    || ('\U{2000}' <= c <= '\U{200A}')
    || c == '\U{2028}' || c == '\U{2029}' || c == '\U{202F}' || c == '\U{205F}'
    || c == '\U{3000}' || c == '\U{FEFF}'
  }

  /** `isEmpty(v)`: null and undefined are empty; a string is empty when
      `JSON.stringify` of it, with all white space, '"' and '\'' removed, is
      the empty string, that is when it consists only of the characters above
      and '\''. (A '"' inside the string is stringified as `\"`, whose
      backslash survives.) Booleans and numbers stringify to non-empty digits
      or words. */
  predicate IsEmpty(v: Value)
  {
    match v
    case VNull => true
    case VStr(s) => forall i :: 0 <= i < |s| ==> s[i] == '\'' || StringifiedBlank(s[i])
    case VBool(_) => false
    case VNum(_) => false
  }

  /** A string with a digit in it, such as any formatted timestamp, is not
      empty; the empty string and a string of spaces are. */
  lemma IsEmptyExamples(s: string, i: nat)
    requires i < |s| && '0' <= s[i] <= '9'
    ensures !IsEmpty(VStr(s))
    ensures IsEmpty(VStr("")) && IsEmpty(VStr("  ")) && IsEmpty(VStr("''")) && IsEmpty(VNull)
    ensures !IsEmpty(VStr("\"\""))
  {
    assert "\"\""[0] == '"';
  }
}
