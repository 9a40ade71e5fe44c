/**
 * JSON values as Python's `json` module produces and consumes them, and the
 * text stored in the JSON-typed columns of the models.
 *
 * `Dumps`/`Loads` stand in for `json.dumps`/`json.loads` on column values. They
 * use a self-delimiting text form (not JSON syntax): the models only rely on
 * `Loads(Dumps(v)) == Some(v)` and on `Dumps(v)` never being empty, and both
 * are proved here. JSON numbers are decimals `mantissa * 10^-scale`; binary
 * floating point is not modelled.
 */
module Json {
  import opened Wrappers
  import PyStr

  datatype Json =
    | JNull
    | JBool(b: bool)
    | JNum(mantissa: int, scale: nat)
    | JStr(s: string)
    | JArr(items: seq<Json>)
    | JObj(members: seq<Member>)

  /** One `key: value` entry of an object, in insertion order (Python dicts keep it). */
  datatype Member = Member(key: string, value: Json)

  const EmptyList: Json := JArr([])
  const EmptyDict: Json := JObj([])

  /** Python truthiness: `None`, `False`, `0`, `""`, `[]` and `{}` are false. */
  predicate Truthy(v: Json)
  {
    match v
    case JNull => false
    case JBool(b) => b
    case JNum(m, _) => m != 0
    case JStr(s) => s != ""
    case JArr(xs) => xs != []
    case JObj(ms) => ms != []
  }

  predicate HasKey(ms: seq<Member>, key: string)
  {
    exists i | 0 <= i < |ms| :: ms[i].key == key
  }

  /** `d[key]` / `d.get(key)` on a dict: the last binding of `key` (as `json.loads` keeps the last duplicate). */
  function Lookup(ms: seq<Member>, key: string): (r: Option<Json>)
    ensures r.None? <==> !HasKey(ms, key)
    ensures r.Some? ==> Member(key, r.value) in ms
  {
    if ms == [] then None
    else if ms[|ms| - 1].key == key then Some(ms[|ms| - 1].value)
    else
      var r := Lookup(ms[..|ms| - 1], key);
      assert forall i | 0 <= i < |ms| - 1 :: ms[..|ms| - 1][i] == ms[i];
      r
  }

  /** With one binding of `key`, at `i`, the lookup finds that one. */
  lemma {:induction false} LookupOnly(ms: seq<Member>, key: string, i: int)
    requires 0 <= i < |ms| && ms[i].key == key
    requires forall j :: 0 <= j < |ms| && j != i ==> ms[j].key != key
    ensures Lookup(ms, key) == Some(ms[i].value)
  {
    if i < |ms| - 1 {
      LookupOnly(ms[..|ms| - 1], key, i);
    }
  }

  /** `d.get(key, default)`. */
  function GetOr(ms: seq<Member>, key: string, default: Json): (r: Json)
    ensures !HasKey(ms, key) ==> r == default
    ensures HasKey(ms, key) ==> Lookup(ms, key) == Some(r) && Member(key, r) in ms
  {
    match Lookup(ms, key)
    case Some(v) => v
    case None => default
  }

  function Pow10(e: nat): (r: nat)
    ensures r >= 1
  {
    if e == 0 then 1 else 10 * Pow10(e - 1)
  }

  /** The numeric value Python compares, for numbers and booleans (`True == 1`); `None` for other values. */
  function AsNumber(v: Json): Option<real>
  {
    match v
    case JNum(m, e) => Some(m as real / Pow10(e) as real)
    case JBool(b) => Some(if b then 1.0 else 0.0)
    case _ => None
  }

  /** Python's `n == v` for an integer `n` and a JSON value `v`. */
  predicate EqualsInt(v: Json, n: int)
  {
    AsNumber(v) == Some(n as real)
  }

  /** Python's name for the type of `v`, as error messages print it. */
  function TypeName(v: Json): string
  {
    match v
    case JNull => "NoneType"
    case JBool(_) => "bool"
    case JNum(_, e) => if e == 0 then "int" else "float"
    case JStr(_) => "str"
    case JArr(_) => "list"
    case JObj(_) => "dict"
  }

  /** `v[key]` with a string key: the value when `v` is a dict holding `key`; otherwise the message of the `KeyError` or `TypeError` raised. */
  function Index(v: Json, key: string): (r: Result<Json>)
    ensures r.Ok? <==> v.JObj? && HasKey(v.members, key)
    ensures r.Ok? ==> Lookup(v.members, key) == Some(r.value)
    ensures v.JObj? && r.Err? ==> r.msg == "'" + key + "'"
  {
    match v
    case JObj(ms) =>
      (match Lookup(ms, key)
       case Some(x) => Ok(x)
       case None => Err("'" + key + "'"))
    case JStr(_) => Err("string indices must be integers, not 'str'")
    case JArr(_) => Err("list indices must be integers or slices, not str")
    case _ => Err("'" + TypeName(v) + "' object is not subscriptable")
  }

  /** What `for x in v` visits: a list's items, a dict's keys, a string's characters; other values raise `TypeError`. */
  function Iterate(v: Json): (r: Result<seq<Json>>)
    ensures v.JArr? ==> r == Ok(v.items)
    ensures r.Ok? <==> v.JArr? || v.JObj? || v.JStr?
    ensures v.JObj? ==>
      r.Ok? && |r.value| == |v.members| && forall i :: 0 <= i < |v.members| ==> r.value[i] == JStr(v.members[i].key)
    ensures v.JStr? ==> r.Ok? && |r.value| == |v.s| && forall i :: 0 <= i < |v.s| ==> r.value[i] == JStr([v.s[i]])
  {
    match v
    case JArr(xs) => Ok(xs)
    case JObj(ms) => Ok(seq(|ms|, i requires 0 <= i < |ms| => JStr(ms[i].key)))
    case JStr(s) => Ok(seq(|s|, i requires 0 <= i < |s| => JStr([s[i]])))
    case _ => Err("'" + TypeName(v) + "' object is not iterable")
  }

  /** Every value of `xs` is a string. */
  predicate AllStrings(xs: seq<Json>)
  {
    forall i :: 0 <= i < |xs| ==> xs[i].JStr?
  }

  /** The texts of a sequence of strings. */
  function Texts(xs: seq<Json>): (r: seq<string>)
    requires AllStrings(xs)
    ensures |r| == |xs| && forall i :: 0 <= i < |xs| ==> xs[i] == JStr(r[i])
  {
    if xs == [] then [] else [xs[0].s] + Texts(xs[1..])
  }

  /** `sep.join(v)`: the strings `v` iterates over, separated by `sep`; a non-string item raises `TypeError`. */
  function JoinStrings(v: Json, sep: string): (r: Result<string>)
    ensures r.Ok? <==> Iterate(v).Ok? && AllStrings(Iterate(v).value)
    ensures v.JArr? && r.Ok? ==> r.value == PyStr.Join(Texts(v.items), sep)
  {
    match Iterate(v)
    case Err(m) => Err("can only join an iterable")
    case Ok(xs) =>
      if AllStrings(xs) then Ok(PyStr.Join(Texts(xs), sep))
      else Err("sequence item: expected str instance")
  }

  /** `ms` with every binding of `key` given the value `value`, in place. */
  function Rebind(ms: seq<Member>, key: string, value: Json): (r: seq<Member>)
    ensures |r| == |ms|
    ensures HasKey(ms, key) ==> Lookup(r, key) == Some(value)
    ensures forall k :: k != key ==> Lookup(r, k) == Lookup(ms, k)
    ensures forall i :: 0 <= i < |ms| ==> r[i].key == ms[i].key
  {
    if ms == [] then []
    else
      var init := Rebind(ms[..|ms| - 1], key, value);
      var last := ms[|ms| - 1];
      RebindSnoc(ms, key, value, init);
      init + [if last.key == key then Member(key, value) else last]
  }

  /** One step of `Rebind`: the rebound prefix, then the last member, rebound when its key is `key`. */
  lemma RebindSnoc(ms: seq<Member>, key: string, value: Json, init: seq<Member>)
    requires ms != [] && |init| == |ms| - 1
    requires HasKey(ms[..|ms| - 1], key) ==> Lookup(init, key) == Some(value)
    requires forall k :: k != key ==> Lookup(init, k) == Lookup(ms[..|ms| - 1], k)
    requires forall i :: 0 <= i < |init| ==> init[i].key == ms[i].key
    ensures var last := ms[|ms| - 1];
      var r := init + [if last.key == key then Member(key, value) else last];
      (HasKey(ms, key) ==> Lookup(r, key) == Some(value)) &&
      (forall k :: k != key ==> Lookup(r, k) == Lookup(ms, k)) &&
      (forall i :: 0 <= i < |ms| ==> r[i].key == ms[i].key)
  {
    var n := |ms| - 1;
    var last := ms[n];
    var m := if last.key == key then Member(key, value) else last;
    var r := init + [m];
    assert r[..n] == init && r[n] == m;
    if HasKey(ms, key) && last.key != key {
      var i :| 0 <= i < |ms| && ms[i].key == key;
      assert ms[..n][i].key == key;
    }
    forall k | k != key
      ensures Lookup(r, k) == Lookup(ms, k)
    {
      if last.key != k {
        assert Lookup(r, k) == Lookup(init, k);
      }
    }
  }

  /** `d[key] = value` on a dict: an existing key keeps its place and takes the new value; a new key goes last. */
  function Put(ms: seq<Member>, key: string, value: Json): (r: seq<Member>)
    ensures Lookup(r, key) == Some(value)
    ensures forall k :: k != key ==> Lookup(r, k) == Lookup(ms, k)
    ensures HasKey(ms, key) ==> |r| == |ms|
    ensures !HasKey(ms, key) ==> r == ms + [Member(key, value)]
  {
    if HasKey(ms, key) then Rebind(ms, key, value)
    else
      var r := ms + [Member(key, value)];
      assert r[..|r| - 1] == ms;
      r
  }

  // ----- the column codec -----

  function DigitChar(d: nat): char
    requires d < 10
  {
    ('0' as int + d) as char
  }

  /** A natural number: its decimal digits, least significant first, then `;`. */
  function NatText(n: nat): string
  {
    [DigitChar(n % 10)] + (if n < 10 then ";" else NatText(n / 10))
  }

  /** A string: each `"` and `\` preceded by `\`, then a closing `"`. */
  function Escape(s: string): string
  {
    if s == [] then "\""
    else (if s[0] == '"' || s[0] == '\\' then ['\\', s[0]] else [s[0]]) + Escape(s[1..])
  }

  function Dumps(v: Json): (t: string)
    ensures |t| > 0
  {
    match v
    case JNull => "n"
    case JBool(b) => if b then "t" else "f"
    case JNum(m, e) => "i" + (if m < 0 then "-" else "+") + NatText(if m < 0 then -m else m) + NatText(e)
    case JStr(s) => "s" + Escape(s)
    case JArr(xs) => "[" + DumpItems(xs) + "]"
    case JObj(ms) => "{" + DumpMembers(ms) + "}"
  }

  function DumpItems(xs: seq<Json>): string
  {
    if xs == [] then "" else Dumps(xs[0]) + DumpItems(xs[1..])
  }

  function DumpMembers(ms: seq<Member>): string
  {
    if ms == [] then "" else "s" + Escape(ms[0].key) + Dumps(ms[0].value) + DumpMembers(ms[1..])
  }

  function ReadNat(t: string): (r: Option<(nat, string)>)
    ensures r.Some? ==> |r.value.1| < |t|
  {
    if t == [] then None
    else if t[0] == ';' then Some((0, t[1..]))
    else if '0' <= t[0] <= '9' then
      match ReadNat(t[1..])
      case Some((m, rest)) => Some(((t[0] as int - '0' as int) + 10 * m, rest))
      case None => None
    else None
  }

  function ReadStr(t: string): (r: Option<(string, string)>)
    ensures r.Some? ==> |r.value.1| < |t|
  {
    if t == [] then None
    else if t[0] == '"' then Some(("", t[1..]))
    else if t[0] == '\\' then
      if |t| < 2 then None
      else
        match ReadStr(t[2..])
        case Some((s, rest)) => Some(([t[1]] + s, rest))
        case None => None
    else
      match ReadStr(t[1..])
      case Some((s, rest)) => Some(([t[0]] + s, rest))
      case None => None
  }

  /** A number after its `i`: the sign, the magnitude of the mantissa, the scale. */
  function ReadNum(t: string): (r: Option<(Json, string)>)
    ensures r.Some? ==> |r.value.1| < |t|
  {
    if t == [] || (t[0] != '+' && t[0] != '-') then None
    else
      match ReadNat(t[1..])
      case None => None
      case Some((m, r1)) =>
        match ReadNat(r1)
        case None => None
        case Some((e, r2)) =>
          var mi: int := m;
          Some((JNum(if t[0] == '-' then -mi else mi, e), r2))
  }

  /** Reads one value from the front of `t`; returns it with the text that follows. */
  function Decode(t: string): (r: Option<(Json, string)>)
    ensures r.Some? ==> |r.value.1| < |t|
    decreases |t|, 0
  {
    if t == [] then None
    else if t[0] == 'n' then Some((JNull, t[1..]))
    else if t[0] == 't' then Some((JBool(true), t[1..]))
    else if t[0] == 'f' then Some((JBool(false), t[1..]))
    else if t[0] == 'i' then
      match ReadNum(t[1..])
      case None => None
      case Some((n, r1)) => Some((n, r1))
    else if t[0] == 's' then
      match ReadStr(t[1..])
      case None => None
      case Some((s, r1)) => Some((JStr(s), r1))
    else if t[0] == '[' then
      match DecodeItems(t[1..])
      case None => None
      case Some((xs, r1)) => Some((JArr(xs), r1))
    else if t[0] == '{' then
      match DecodeMembers(t[1..])
      case None => None
      case Some((ms, r1)) => Some((JObj(ms), r1))
    else None
  }

  /** Reads values up to and including the closing `]`. */
  function DecodeItems(t: string): (r: Option<(seq<Json>, string)>)
    ensures r.Some? ==> |r.value.1| < |t|
    decreases |t|, 1
  {
    if t == [] then None
    else if t[0] == ']' then Some(([], t[1..]))
    else
      match Decode(t)
      case None => None
      case Some((x, r1)) =>
        match DecodeItems(r1)
        case None => None
        case Some((xs, r2)) => Some(([x] + xs, r2))
  }

  /** Reads `key value` entries up to and including the closing `}`. */
  function DecodeMembers(t: string): (r: Option<(seq<Member>, string)>)
    ensures r.Some? ==> |r.value.1| < |t|
    decreases |t|, 1
  {
    if t == [] then None
    else if t[0] == '}' then Some(([], t[1..]))
    else if t[0] != 's' then None
    else
      match ReadStr(t[1..])
      case None => None
      case Some((k, r1)) =>
        match Decode(r1)
        case None => None
        case Some((v, r2)) =>
          match DecodeMembers(r2)
          case None => None
          case Some((ms, r3)) => Some(([Member(k, v)] + ms, r3))
  }

  /** `json.loads`: the whole text must be one value; `None` stands for the decode error it raises. */
  function Loads(t: string): Option<Json>
  {
    match Decode(t)
    case Some((v, rest)) => if rest == [] then Some(v) else None
    case None => None
  }

  lemma {:induction false} ReadNatText(n: nat, rest: string)
    ensures ReadNat(NatText(n) + rest) == Some((n, rest))
  {
    var t := NatText(n) + rest;
    if n < 10 {
      assert t == [DigitChar(n)] + (";" + rest);
      assert t[1..] == ";" + rest;
    } else {
      ReadNatText(n / 10, rest);
      assert t == [DigitChar(n % 10)] + (NatText(n / 10) + rest);
      assert t[1..] == NatText(n / 10) + rest;
    }
  }

  lemma {:induction false} ReadEscape(s: string, rest: string)
    ensures ReadStr(Escape(s) + rest) == Some((s, rest))
  {
    var t := Escape(s) + rest;
    if s == [] {
      assert t == "\"" + rest;
    } else {
      ReadEscape(s[1..], rest);
      if s[0] == '"' || s[0] == '\\' {
        assert t == ['\\', s[0]] + (Escape(s[1..]) + rest);
        assert t[2..] == Escape(s[1..]) + rest;
      } else {
        assert t == [s[0]] + (Escape(s[1..]) + rest);
        assert t[1..] == Escape(s[1..]) + rest;
      }
      assert [s[0]] + s[1..] == s;
    }
  }

  lemma ReadNumText(m: int, e: nat, rest: string)
    ensures ReadNum([if m < 0 then '-' else '+'] + (NatText(if m < 0 then -m else m) + (NatText(e) + rest)))
         == Some((JNum(m, e), rest))
  {
    var a: nat := if m < 0 then -m else m;
    var r1 := NatText(e) + rest;
    var u := [if m < 0 then '-' else '+'] + (NatText(a) + r1);
    ReadNatText(a, r1);
    ReadNatText(e, rest);
    assert u[1..] == NatText(a) + r1;
    assert ReadNat(u[1..]) == Some((a, r1));
    assert ReadNat(r1) == Some((e, rest));
  }

  lemma DecodeNum(m: int, e: nat, rest: string)
    ensures Decode(Dumps(JNum(m, e)) + rest) == Some((JNum(m, e), rest))
  {
    var u := [if m < 0 then '-' else '+'] + (NatText(if m < 0 then -m else m) + (NatText(e) + rest));
    ReadNumText(m, e, rest);
    DumpsNumText(m, e, rest);
    DecodeTagI(u);
  }

  /** The text of a number, regrouped as its tag and what `ReadNum` reads. */
  lemma DumpsNumText(m: int, e: nat, rest: string)
    ensures Dumps(JNum(m, e)) + rest ==
      ['i'] + ([if m < 0 then '-' else '+'] + (NatText(if m < 0 then -m else m) + (NatText(e) + rest)))
  {
    var a: nat := if m < 0 then -m else m;
    var sign := if m < 0 then "-" else "+";
    assert sign == [if m < 0 then '-' else '+'];
    assert Dumps(JNum(m, e)) == "i" + sign + NatText(a) + NatText(e);
    Regroup("i", sign, NatText(a), NatText(e), rest);
  }

  lemma Regroup(p: string, q: string, x: string, y: string, z: string)
    ensures p + q + x + y + z == p + (q + (x + (y + z)))
  {
  }

  /** After the tag `i` the decoder reads a number. */
  lemma DecodeTagI(u: string)
    ensures Decode(['i'] + u) == ReadNum(u)
  {
    var t := ['i'] + u;
    assert t[0] == 'i' && t[1..] == u;
  }

  lemma DecodeStr(s: string, rest: string)
    ensures Decode(Dumps(JStr(s)) + rest) == Some((JStr(s), rest))
  {
    var t := Dumps(JStr(s)) + rest;
    ReadEscape(s, rest);
    assert t[1..] == Escape(s) + rest;
  }

  /** The codec's round trip, with any text after the value left for the caller. */
  lemma {:induction false} DecodeDumps(v: Json, rest: string)
    ensures Decode(Dumps(v) + rest) == Some((v, rest))
    decreases v, 1
  {
    match v
    case JNull =>
    case JBool(b) =>
    case JNum(m, e) => DecodeNum(m, e, rest);
    case JStr(s) => DecodeStr(s, rest);
    case JArr(xs) =>
      var t := Dumps(v) + rest;
      Bracketed('[', DumpItems(xs), ']', rest);
      assert t[0] == '[' && t[1..] == DumpItems(xs) + "]" + rest;
      DecodeDumpItems(xs, rest);
      assert Decode(t) == Some((JArr(xs), rest));
    case JObj(ms) =>
      var t := Dumps(v) + rest;
      Bracketed('{', DumpMembers(ms), '}', rest);
      assert t[0] == '{' && t[1..] == DumpMembers(ms) + "}" + rest;
      DecodeDumpMembers(ms, rest);
      assert Decode(t) == Some((JObj(ms), rest));
  }

  /** A bracketed text: its first character and what follows it. */
  lemma Bracketed(open: char, body: string, close: char, rest: string)
    ensures var t := [open] + body + [close] + rest;
      t[0] == open && t[1..] == body + [close] + rest
  {
    var t := [open] + body + [close] + rest;
    assert t == [open] + (body + [close] + rest);
  }

  lemma {:induction false} DecodeDumpItems(xs: seq<Json>, rest: string)
    ensures DecodeItems(DumpItems(xs) + "]" + rest) == Some((xs, rest))
    decreases xs, 0
  {
    if xs != [] {
      var tail := DumpItems(xs[1..]) + "]" + rest;
      var t := DumpItems(xs) + "]" + rest;
      assert DumpItems(xs) == Dumps(xs[0]) + DumpItems(xs[1..]);
      assert t == Dumps(xs[0]) + tail;
      assert t[0] == Dumps(xs[0])[0] && t[0] != ']' by {
        DumpsHead(xs[0]);
      }
      DecodeDumps(xs[0], tail);
      DecodeDumpItems(xs[1..], rest);
      assert DecodeItems(t) == Some(([xs[0]] + xs[1..], rest));
      assert [xs[0]] + xs[1..] == xs;
    }
  }

  /** No value's text starts with a closing bracket. */
  lemma DumpsHead(v: Json)
    ensures Dumps(v)[0] in "ntfis[{"
  {
  }

  /** The text of a non-empty member list, regrouped around its first member. */
  lemma DumpMembersText(ms: seq<Member>, rest: string)
    requires ms != []
    ensures DumpMembers(ms) + "}" + rest ==
      "s" + (Escape(ms[0].key) + (Dumps(ms[0].value) + (DumpMembers(ms[1..]) + "}" + rest)))
  {
    var e := Escape(ms[0].key);
    var d := Dumps(ms[0].value);
    var m := DumpMembers(ms[1..]);
    var x := "s" + e + d;
    assert DumpMembers(ms) == x + m;
    Shift(x, m, "}", rest);
    Shift2("s", e, d, m + "}" + rest);
  }

  lemma Shift(a: string, b: string, c: string, d: string)
    ensures a + b + c + d == a + (b + c + d)
  {
  }

  lemma Shift2(a: string, b: string, c: string, d: string)
    ensures a + b + c + d == a + (b + (c + d))
  {
  }

  lemma {:induction false} DecodeDumpMembers(ms: seq<Member>, rest: string)
    ensures DecodeMembers(DumpMembers(ms) + "}" + rest) == Some((ms, rest))
    decreases ms, 0
  {
    if ms != [] {
      var key := ms[0].key;
      var v := ms[0].value;
      var tail := DumpMembers(ms[1..]) + "}" + rest;
      var r1 := Dumps(v) + tail;
      var t := DumpMembers(ms) + "}" + rest;
      DumpMembersText(ms, rest);
      assert t == "s" + (Escape(key) + r1);
      assert t[0] == 's' && t[1..] == Escape(key) + r1;
      ReadEscape(key, r1);
      DecodeDumps(v, tail);
      DecodeDumpMembers(ms[1..], rest);
      assert DecodeMembers(t) == Some(([Member(key, v)] + ms[1..], rest));
      assert [Member(key, v)] + ms[1..] == ms;
    }
  }

  /** What `json.dumps` writes, `json.loads` reads back. */
  lemma LoadsDumps(v: Json)
    ensures Loads(Dumps(v)) == Some(v)
  {
    DecodeDumps(v, []);
    assert Dumps(v) + [] == Dumps(v);
  }
}
