/** The values both scripts handle once `json.loads` has decoded them, and the
    handful of Python built-ins they apply to those values: truthiness, `or`,
    `dict.get`, `str()` and `str.lower()`. */
module PyValues {

  datatype Option<+T> = None | Some(value: T)

  /** The outcome of a Python expression or call: a value, or an exception
      that leaves the enclosing block. */
  datatype Py<+T> = Returns(value: T) | Raises

  /** A decoded JSON value. An object keeps its members in document order;
      JSON numbers with a fraction or an exponent are not part of the model. */
  datatype Json =
    | JNull
    | JBool(b: bool)
    | JInt(i: int)
    | JStr(s: string)
    | JList(items: seq<Json>)
    | JObj(members: seq<(string, Json)>)

  /** Python's truth value of a decoded JSON value. */
  predicate Truthy(v: Json) {
    match v
    case JNull => false
    case JBool(b) => b
    case JInt(i) => i != 0
    case JStr(s) => s != ""
    case JList(items) => items != []
    case JObj(members) => members != []
  }

  /** Python's `a or b`: the first operand when it is truthy, else the second. */
  function Or(a: Json, b: Json): (r: Json)
    ensures Truthy(r) <==> Truthy(a) || Truthy(b)
    ensures Truthy(a) ==> r == a
    ensures !Truthy(a) ==> r == b
  {
    if Truthy(a) then a else b
  }

  /** The keys an object's members bind. */
  function Keys(members: seq<(string, Json)>): set<string> {
    set m | m in members :: m.0
  }

  /** The value a decoded dict holds for `k`: when a key is repeated in the
      document, `json.loads` keeps the last one. */
  function Lookup(members: seq<(string, Json)>, k: string): (r: Option<Json>)
  {
    if members == [] then None
    else
      var last := members[|members| - 1];
      var init := members[..|members| - 1];
      assert members == init + [last];
      if last.0 == k then Some(last.1) else Lookup(init, k)
  }

  /** `d.get(k, default)` on a dict `d`. */
  function GetOr(d: Json, k: string, default: Json): (r: Json)
    requires d.JObj?
  {
    match Lookup(d.members, k)
    case Some(v) => v
    case None => default
  }

  /** `d.get(k)` on a dict `d`: None when the key is absent. */
  function Get(d: Json, k: string): (r: Json)
    requires d.JObj?
  {
    GetOr(d, k, JNull)
  }

  /** A key that no member binds is looked up as absent. */
  lemma {:induction false} LookupAbsent(members: seq<(string, Json)>, k: string)
    requires k !in Keys(members)
    ensures Lookup(members, k) == None
  {
    if members != [] {
      var init := members[..|members| - 1];
      assert members[|members| - 1] in members;
      assert Keys(init) <= Keys(members) by {
        forall m | m in init ensures m in members { }
      }
      LookupAbsent(init, k);
    }
  }

  /** The same, for a key that differs from the key of every member. */
  lemma {:induction false} LookupUnbound(members: seq<(string, Json)>, k: string)
    requires forall i | 0 <= i < |members| :: members[i].0 != k
    ensures Lookup(members, k) == None
  {
    if members != [] {
      LookupUnbound(members[..|members| - 1], k);
    }
  }

  /** A key that is found is bound, to the value found, by the last member
      that binds it: a later duplicate overrides an earlier one. */
  lemma {:induction false} LookupLast(members: seq<(string, Json)>, k: string)
    requires Lookup(members, k).Some?
    ensures exists i | 0 <= i < |members| ::
      members[i] == (k, Lookup(members, k).value) && forall j | i < j < |members| :: members[j].0 != k
  {
    var last := members[|members| - 1];
    var init := members[..|members| - 1];
    if last.0 == k {
      assert members[|members| - 1] == (k, Lookup(members, k).value);
    } else {
      LookupLast(init, k);
      var i :| 0 <= i < |init| && init[i] == (k, Lookup(init, k).value) && forall j | i < j < |init| :: init[j].0 != k;
      assert members[i] == init[i];
      assert forall j | i < j < |members| :: members[j].0 != k by {
        forall j | i < j < |members| ensures members[j].0 != k {
          if j < |init| { assert members[j] == init[j]; }
        }
      }
    }
  }

  /** `d.get(k, default)` on a dict without key `k` is the default. */
  lemma GetAbsent(d: Json, k: string, default: Json)
    requires d.JObj? && k !in Keys(d.members)
    ensures GetOr(d, k, default) == default
    ensures Get(d, k) == JNull
  {
    LookupAbsent(d.members, k);
  }

  function Digit(n: nat): (c: char)
    requires n < 10
    ensures '0' <= c <= '9'
    ensures c as int - '0' as int == n
  {
    "0123456789"[n]
  }

  /** The number a string of decimal digits denotes, most significant digit
      first, as `int(s)` reads it. */
  function NumeralValue(s: string): int {
    if s == [] then 0
    else NumeralValue(s[..|s| - 1]) * 10 + (s[|s| - 1] as int - '0' as int)
  }

  /** The decimal numeral of a natural number, most significant digit first. */
  function NatDecimal(n: nat): (r: string)
    ensures |r| >= 1
    ensures forall i | 0 <= i < |r| :: '0' <= r[i] <= '9'
    ensures NumeralValue(r) == n
    ensures n >= 10 ==> |r| >= 2
  {
    if n < 10 then [Digit(n)]
    else
      var r := NatDecimal(n / 10) + [Digit(n % 10)];
      assert r[..|r| - 1] == NatDecimal(n / 10);
      r
  }

  /** `str(i)` for an int: a minus sign before the numeral of a negative
      number. */
  function Decimal(i: int): (r: string)
    ensures |r| >= 1
    ensures r[0] == '-' <==> i < 0
    ensures i < 0 ==> NumeralValue(r[1..]) == -i
    ensures i >= 0 ==> NumeralValue(r) == i
  {
    if i < 0 then
      var r := "-" + NatDecimal(-i);
      assert r[1..] == NatDecimal(-i);
      r
    else NatDecimal(i)
  }

  /** `repr(v)`. A string is put between single quotes; Python's choice of
      quote character and its escapes are not modelled. */
  function Repr(v: Json): string
    decreases v, 1
  {
    match v
    case JNull => "None"
    case JBool(b) => if b then "True" else "False"
    case JInt(i) => Decimal(i)
    case JStr(s) => "'" + s + "'"
    case JList(items) => "[" + ReprItems(v, items) + "]"
    case JObj(members) => "{" + ReprMembers(v, members) + "}"
  }

  function ReprItems(ghost parent: Json, items: seq<Json>): string
    requires forall x | x in items :: x < parent
    decreases parent, 0, |items|
  {
    if items == [] then ""
    else
      assert items[0] in items;
      if |items| == 1 then Repr(items[0])
      else
        assert forall x | x in items[1..] :: x in items;
        Repr(items[0]) + ", " + ReprItems(parent, items[1..])
  }

  function ReprMembers(ghost parent: Json, members: seq<(string, Json)>): string
    requires forall m | m in members :: m.1 < parent
    decreases parent, 0, |members|
  {
    if members == [] then ""
    else
      assert members[0] in members;
      var entry := "'" + members[0].0 + "': " + Repr(members[0].1);
      if |members| == 1 then entry
      else
        assert forall m | m in members[1..] :: m in members;
        entry + ", " + ReprMembers(parent, members[1..])
  }

  /** `str(v)`: a string is itself, everything else is its repr. */
  function Str(v: Json): string {
    if v.JStr? then v.s else Repr(v)
  }

  /** The characters `str.lower()` changes within the model: A-Z and the
      upper-case letters of Latin-1 (U+00C0 to U+00DE, except the
      multiplication sign U+00D7). */
  predicate IsUpper(c: char) {
    ('A' <= c <= 'Z') || ('\U{00C0}' <= c <= '\U{00DE}' && c != '\U{00D7}')
  }

  function LowerChar(c: char): (r: char)
    ensures !IsUpper(r)
    ensures !IsUpper(c) ==> r == c
    ensures IsUpper(c) ==> r as int == c as int + 32
  {
    if IsUpper(c) then (c as int + 32) as char else c
  }

  /** `s.lower()`, character by character. */
  function Lower(s: string): (r: string)
    ensures |r| == |s|
    ensures forall i | 0 <= i < |r| :: !IsUpper(r[i])
    ensures forall i | 0 <= i < |r| :: r[i] == LowerChar(s[i])
  {
    seq(|s|, i requires 0 <= i < |s| => LowerChar(s[i]))
  }

  /** Lowering commutes with taking a slice. */
  lemma LowerSlice(s: string, i: nat, j: nat)
    requires i <= j <= |s|
    ensures Lower(s)[i..j] == Lower(s[i..j])
  {
  }
}
