/** `airlock-canon-1`: the canonical JSON text of a value, and a reader that undoes it. */
module Canonical {
  import opened Json
  import opened Types

  // ----- The permitted domain -----

  /** A Python str. Dafny characters are the surrogate-free ones, so a str holding a lone
      surrogate is a constructor of its own. */
  datatype PyStr = Clean(text: string) | WithSurrogate

  datatype PyObject =
    | PyNone
    | PyBool(b: bool)
    | PyInt(n: int)
    | PyFloat
    | PyStr(s: PyStr)
    | PyList(items: seq<PyObject>)
    | PyDict(entries: seq<PyEntry>)
    | PyOther                        // Decimal, datetime, tuple, set, ...

  datatype PyEntry = PyEntry(key: PyKey, value: PyObject)
  datatype PyKey = StrKey(s: PyStr) | OtherKey

  /** 2**53 - 1 */
  const MAX_CANONICAL_INT := 9007199254740991

  datatype PathStep = Index(i: nat) | Entry(i: nat)
  type Path = seq<PathStep>

  /** Depth-first: the value with every part checked, or the path of the first part that
      is outside the domain. */
  datatype Checked<T> = Good(value: T) | Bad(path: Path)

  function Check(o: PyObject): Checked<Value> {
    match o
    case PyNone => Good(Null)
    case PyBool(b) => Good(Bool(b))
    case PyInt(n) => if -MAX_CANONICAL_INT <= n <= MAX_CANONICAL_INT then Good(Int(n)) else Bad([])
    case PyFloat => Bad([])
    case PyStr(s) => if s.Clean? then Good(Str(s.text)) else Bad([])
    case PyList(items) =>
      (match CheckItems(items, 0) case Good(vs) => Good(List(vs)) case Bad(path) => Bad(path))
    case PyDict(entries) =>
      (match CheckEntries(entries, 0) case Good(ms) => Good(Obj(ms)) case Bad(path) => Bad(path))
    case PyOther => Bad([])
  }

  function CheckItems(items: seq<PyObject>, i: nat): Checked<seq<Value>> {
    if items == [] then Good([])
    else
      match Check(items[0])
      case Bad(path) => Bad([Index(i)] + path)
      case Good(v) =>
        match CheckItems(items[1..], i + 1)
        case Bad(path) => Bad(path)
        case Good(vs) => Good([v] + vs)
  }

  function CheckEntries(entries: seq<PyEntry>, i: nat): Checked<seq<Member>> {
    if entries == [] then Good([])
    else
      match CheckEntry(entries[0])
      case Bad(path) => Bad([Entry(i)] + path)
      case Good(m) =>
        match CheckEntries(entries[1..], i + 1)
        case Bad(path) => Bad(path)
        case Good(ms) => Good([m] + ms)
  }

  function CheckEntry(e: PyEntry): Checked<Member> {
    if !(e.key.StrKey? && e.key.s.Clean?) then Bad([])
    else match Check(e.value) case Bad(path) => Bad(path) case Good(v) => Good(Member(e.key.s.text, v))
  }

  /** What the domain is, stated apart from the order of checking. */
  ghost predicate Permitted(o: PyObject) {
    match o
    case PyInt(n) => -MAX_CANONICAL_INT <= n <= MAX_CANONICAL_INT
    case PyFloat => false
    case PyStr(s) => s.Clean?
    case PyList(items) => forall i :: 0 <= i < |items| ==> Permitted(items[i])
    case PyDict(entries) => forall i :: 0 <= i < |entries| ==> PermittedEntry(entries[i])
    case PyOther => false
    case _ => true
  }

  ghost predicate PermittedEntry(e: PyEntry) {
    e.key.StrKey? && e.key.s.Clean? && Permitted(e.value)
  }

  lemma {:induction false} CheckAcceptsPermitted(o: PyObject)
    ensures Check(o).Good? <==> Permitted(o)
  {
    match o
    case PyList(items) => CheckItemsAccepts(items, 0);
    case PyDict(entries) => CheckEntriesAccepts(entries, 0);
    case _ =>
  }

  lemma {:induction false} CheckItemsAccepts(items: seq<PyObject>, i: nat)
    ensures CheckItems(items, i).Good? <==> forall k :: 0 <= k < |items| ==> Permitted(items[k])
  {
    if items != [] {
      CheckAcceptsPermitted(items[0]);
      CheckItemsAccepts(items[1..], i + 1);
      assert items == [items[0]] + items[1..];
    }
  }

  lemma {:induction false} CheckEntriesAccepts(entries: seq<PyEntry>, i: nat)
    ensures CheckEntries(entries, i).Good? <==> forall k :: 0 <= k < |entries| ==> PermittedEntry(entries[k])
  {
    if entries != [] {
      CheckEntryAccepts(entries[0]);
      CheckEntriesAccepts(entries[1..], i + 1);
      assert entries == [entries[0]] + entries[1..];
    }
  }

  lemma {:induction false} CheckEntryAccepts(e: PyEntry)
    ensures CheckEntry(e).Good? <==> PermittedEntry(e)
  {
    CheckAcceptsPermitted(e.value);
  }

  // ----- Printing -----

  function Hex(d: nat): char
    requires d < 16
  {
    if d < 10 then ('0' as int + d) as char else ('a' as int + d - 10) as char
  }

  function EscapeChar(c: char): string {
    if c == '"' then "\\\""
    else if c == '\\' then "\\\\"
    else if c == '\n' then "\\n"
    else if c == '\r' then "\\r"
    else if c == '\t' then "\\t"
    else if c as int == 8 then "\\b"
    else if c as int == 12 then "\\f"
    else if c as int < 32 then "\\u00" + [Hex(c as int / 16), Hex(c as int % 16)]
    else [c]
  }

  function Escaped(s: string): string {
    if s == "" then "" else EscapeChar(s[0]) + Escaped(s[1..])
  }

  function Quoted(s: string): string {
    "\"" + Escaped(s) + "\""
  }

  function Digit(d: nat): char
    requires d < 10
  {
    ('0' as int + d) as char
  }

  function Digits(n: nat): string {
    if n < 10 then [Digit(n)] else Digits(n / 10) + [Digit(n % 10)]
  }

  function IntText(n: int): string {
    if n < 0 then "-" + Digits(-n) else Digits(n)
  }

  /** The compact text of a value, members in the order given. */
  function Text(v: Value): string {
    match v
    case Null => "null"
    case Bool(b) => if b then "true" else "false"
    case Int(n) => IntText(n)
    case Str(s) => Quoted(s)
    case List(items) => if items == [] then "[]" else "[" + ItemsText(items) + "]"
    case Obj(ms) => if ms == [] then "{}" else "{" + MembersText(ms) + "}"
  }

  function ItemsText(items: seq<Value>): string
    requires items != []
  {
    if |items| == 1 then Text(items[0]) else Text(items[0]) + "," + ItemsText(items[1..])
  }

  function MemberText(m: Member): string {
    Quoted(m.name) + ":" + Text(m.value)
  }

  function MembersText(ms: seq<Member>): string
    requires ms != []
  {
    if |ms| == 1 then MemberText(ms[0]) else MemberText(ms[0]) + "," + MembersText(ms[1..])
  }

  // ----- Key order: code points, compared lexicographically -----

  predicate Before(a: string, b: string) {
    b != "" && (a == "" || a[0] < b[0] || (a[0] == b[0] && Before(a[1..], b[1..])))
  }

  function Insert(m: Member, ms: seq<Member>): seq<Member> {
    if ms == [] then [m]
    else if Before(ms[0].name, m.name) then [ms[0]] + Insert(m, ms[1..])
    else [m] + ms
  }

  function Sorted(ms: seq<Member>): seq<Member> {
    if ms == [] then [] else Insert(ms[0], Sorted(ms[1..]))
  }

  /** The value with the members of every object in key order. */
  function Ordered(v: Value): Value {
    match v
    case List(items) => List(OrderedItems(items))
    case Obj(ms) => Obj(Sorted(OrderedMembers(ms)))
    case _ => v
  }

  function OrderedItems(items: seq<Value>): (r: seq<Value>)
    ensures |r| == |items|
    ensures forall i :: 0 <= i < |items| ==> r[i] == Ordered(items[i])
  {
    if items == [] then [] else [Ordered(items[0])] + OrderedItems(items[1..])
  }

  function OrderedMembers(ms: seq<Member>): (r: seq<Member>)
    ensures |r| == |ms|
    ensures forall i :: 0 <= i < |ms| ==> r[i] == Member(ms[i].name, Ordered(ms[i].value))
  {
    if ms == [] then [] else [Member(ms[0].name, Ordered(ms[0].value))] + OrderedMembers(ms[1..])
  }

  /** The canonical text of a value. */
  function Canon(v: Value): string {
    Text(Ordered(v))
  }

  /** `canonical_json`: refused outside the domain, otherwise the canonical text. */
  function CanonicalJson(o: PyObject): Checked<string> {
    match Check(o) case Good(v) => Good(Canon(v)) case Bad(path) => Bad(path)
  }
}
