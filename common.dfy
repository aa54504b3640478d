/** Values and helpers shared by every handler: optional request fields with
    JavaScript truthiness, the `String.prototype.trim` whitespace set, ASCII
    upper-casing, the array filters the routes use, and the "newest first"
    ordering that `.sort({ createdAt: -1 })` gives a listing. */
module Common {

  type Id = string

  datatype Option<T> = None | Some(value: T)

  /** A handler's reply: a status code with a payload, or a status code with
      the `message` / `error` text of the JSON error body. */
  datatype Response<T> = Ok(status: nat, value: T) | Err(status: nat, message: string)

  // ---------------------------------------------------------------------
  // JavaScript truthiness

  /** `!!s` for a request field that may be absent: present and not "". */
  predicate Truthy(o: Option<string>) {
    o.Some? && o.value != ""
  }

  /** `!!n` for a numeric field that may be absent: present and not 0. */
  predicate TruthyNum(o: Option<int>) {
    o.Some? && o.value != 0
  }

  /** `a || b` between two optional strings. */
  function Or(a: Option<string>, b: Option<string>): Option<string> {
    if Truthy(a) then a else b
  }

  /** `a || "fallback"`. */
  function OrElse(a: Option<string>, fallback: string): string {
    if Truthy(a) then a.value else fallback
  }

  /** Template-literal rendering of a value that may be `undefined`. */
  function ShowUndefined(o: Option<string>): string {
    if o.Some? then o.value else "undefined"
  }

  /** Template-literal rendering of a value that may be `null`. */
  function ShowNull(o: Option<string>): string {
    if o.Some? then o.value else "null"
  }

  // ---------------------------------------------------------------------
  // Decimal rendering of numbers (`"" + n`)

  function DigitChar(d: nat): char
    requires d < 10
  {
    "0123456789"[d]
  }

  predicate IsDigit(c: char) {
    '0' <= c <= '9'
  }

  function NatToString(n: nat): (r: string)
    decreases n
  {
    if n < 10 then [DigitChar(n)] else NatToString(n / 10) + [DigitChar(n % 10)]
  }

  /** The decimal rendering of a number is a non-empty run of digits. */
  lemma {:induction false} NatToStringDigits(n: nat)
    ensures NatToString(n) != []
    ensures forall i :: 0 <= i < |NatToString(n)| ==> IsDigit(NatToString(n)[i])
    decreases n
  {
    if n >= 10 {
      NatToStringDigits(n / 10);
      var s := NatToString(n / 10);
      assert NatToString(n) == s + [DigitChar(n % 10)];
    }
  }

  /** Whether every character is a decimal digit. */
  predicate AllDigits(s: string) {
    forall i :: 0 <= i < |s| ==> IsDigit(s[i])
  }

  function DigitsValue(s: string): nat
    requires AllDigits(s)
  {
    if s == [] then 0 else DigitsValue(s[..|s| - 1]) * 10 + (s[|s| - 1] as int - '0' as int)
  }

  /** The number a query string casts to, for plain decimal digits; any
      other string fails the cast. */
  function DecimalValue(s: string): Option<int> {
    if s != [] && AllDigits(s) then Some(DigitsValue(s)) else None
  }

  lemma DigitCharValue(d: nat)
    requires d < 10
    ensures DigitChar(d) as int - '0' as int == d
  {
    assert d in {0, 1, 2, 3, 4, 5, 6, 7, 8, 9};
  }

  /** A year written out in decimal casts back to itself. */
  lemma {:induction false} DecimalRoundTrip(n: nat)
    ensures DecimalValue(NatToString(n)) == Some(n)
    decreases n
  {
    NatToStringDigits(n);
    var s := NatToString(n);
    DigitCharValue(n % 10);
    if n < 10 {
      assert s == [DigitChar(n)] && n % 10 == n;
      assert s[..0] == [] && DigitsValue(s[..0]) == 0;
      assert DigitsValue(s) == DigitsValue(s[..0]) * 10 + (s[0] as int - '0' as int);
    } else {
      DecimalRoundTrip(n / 10);
      assert s[..|s| - 1] == NatToString(n / 10);
    }
  }

  /** Different numbers have different decimal renderings. */
  lemma NatToStringInjective(a: nat, b: nat)
    ensures NatToString(a) == NatToString(b) <==> a == b
  {
    DecimalRoundTrip(a);
    DecimalRoundTrip(b);
  }

  function IntToString(n: int): string {
    if n < 0 then "-" + NatToString(-n) else NatToString(n)
  }

  // ---------------------------------------------------------------------
  // String.prototype.trim

  /** The characters ECMAScript's `trim` removes: WhiteSpace and LineTerminator. */
  predicate IsSpace(c: char) {
    || c == ' ' || c == '\t' || c == '\n' || c == '\U{000B}' || c == '\U{000C}' || c == '\r'
    || c == '\U{00A0}' || c == '\U{1680}' || ('\U{2000}' <= c <= '\U{200A}')
    || c == '\U{2028}' || c == '\U{2029}' || c == '\U{202F}' || c == '\U{205F}'
    || c == '\U{3000}' || c == '\U{FEFF}'
  }

  function TrimStart(s: string): string {
    if s != [] && IsSpace(s[0]) then TrimStart(s[1..]) else s
  }

  function TrimEnd(s: string): string {
    if s != [] && IsSpace(s[|s| - 1]) then TrimEnd(s[..|s| - 1]) else s
  }

  function Trim(s: string): string {
    TrimEnd(TrimStart(s))
  }

  /** A string that `trim` leaves alone: empty, or not starting or ending in white space. */
  predicate Trimmed(s: string) {
    s == [] || (!IsSpace(s[0]) && !IsSpace(s[|s| - 1]))
  }

  lemma {:induction false} TrimStartShape(s: string)
    ensures TrimStart(s) == [] || !IsSpace(TrimStart(s)[0])
    ensures |TrimStart(s)| <= |s| && TrimStart(s) == s[|s| - |TrimStart(s)|..]
  {
    if s != [] && IsSpace(s[0]) {
      TrimStartShape(s[1..]);
    }
  }

  lemma {:induction false} TrimEndShape(s: string)
    ensures TrimEnd(s) == [] || !IsSpace(TrimEnd(s)[|TrimEnd(s)| - 1])
    ensures |TrimEnd(s)| <= |s| && TrimEnd(s) == s[..|TrimEnd(s)|]
  {
    if s != [] && IsSpace(s[|s| - 1]) {
      TrimEndShape(s[..|s| - 1]);
    }
  }

  /** `trim` removes white space at both ends and nothing else from the middle. */
  lemma TrimIsTrimmed(s: string)
    ensures Trimmed(Trim(s))
  {
    var t := TrimStart(s);
    TrimStartShape(s);
    TrimEndShape(t);
    var u := TrimEnd(t);
    if u != [] {
      assert u[0] == t[0];
    }
  }

  /** `trim` is the identity on a trimmed string. */
  lemma TrimOfTrimmed(s: string)
    requires Trimmed(s)
    ensures Trim(s) == s
  {
    if s != [] {
      assert TrimStart(s) == s;
      assert TrimEnd(s) == s;
    }
  }

  lemma {:induction false} TrimEndDropsSpaces(t: string, k: nat)
    requires Trimmed(t)
    ensures TrimEnd(t + seq(k, _ => ' ')) == t
    decreases k
  {
    if k > 0 {
      var pad := seq(k, _ => ' ');
      assert (t + pad)[..|t + pad| - 1] == t + seq(k - 1, _ => ' ');
      TrimEndDropsSpaces(t, k - 1);
    } else {
      assert t + seq(k, _ => ' ') == t;
    }
  }

  lemma {:induction false} TrimStartDropsSpaces(t: string, k: nat)
    requires Trimmed(t)
    ensures TrimStart(seq(k, _ => ' ') + t) == t
    decreases k
  {
    if k > 0 {
      var pad := seq(k, _ => ' ');
      assert (pad + t)[1..] == seq(k - 1, _ => ' ') + t;
      TrimStartDropsSpaces(t, k - 1);
    } else {
      assert seq(k, _ => ' ') + t == t;
    }
  }

  /** `${a} ${b}`.trim() for two already trimmed words: the single word when
      the other one is empty, otherwise both joined by one space. */
  lemma JoinTrimmed(a: string, b: string)
    requires Trimmed(a) && Trimmed(b)
    ensures a == [] ==> Trim(a + " " + b) == b
    ensures b == [] ==> Trim(a + " " + b) == a
    ensures a != [] && b != [] ==> Trim(a + " " + b) == a + " " + b
  {
    if a == [] {
      assert a + " " + b == seq(1, _ => ' ') + b;
      TrimStartDropsSpaces(b, 1);
      TrimOfTrimmed(b);
    } else if b == [] {
      assert a + " " + b == a + seq(1, _ => ' ');
      assert TrimStart(a + " " + b) == a + " " + b;
      TrimEndDropsSpaces(a, 1);
    } else {
      var j := a + " " + b;
      assert j[0] == a[0] && j[|j| - 1] == b[|b| - 1];
      TrimOfTrimmed(j);
    }
  }

  // ---------------------------------------------------------------------
  // Case

  function UpperChar(c: char): char {
    if 'a' <= c <= 'z' then (c as int - 32) as char else c
  }

  /** `toUpperCase` on ASCII letters. */
  function Upper(s: string): (r: string)
    ensures |r| == |s|
    ensures forall i :: 0 <= i < |s| ==> r[i] == UpperChar(s[i])
  {
    seq(|s|, i requires 0 <= i < |s| => UpperChar(s[i]))
  }

  /** Case-insensitive ASCII equality of characters, as a regular expression
      with the `i` flag compares an ASCII pattern letter. */
  predicate SameLetter(a: char, b: char) {
    UpperChar(a) == UpperChar(b)
  }

  predicate StartsWithCI(s: string, prefix: string) {
    |prefix| <= |s| && forall i :: 0 <= i < |prefix| ==> SameLetter(s[i], prefix[i])
  }

  predicate StartsWith(s: string, prefix: string) {
    |prefix| <= |s| && s[..|prefix|] == prefix
  }

  // ---------------------------------------------------------------------
  // Arrays of ids

  predicate NoDups<T(==)>(s: seq<T>) {
    forall i, j :: 0 <= i < j < |s| ==> s[i] != s[j]
  }

  lemma NoDupsPrefix<T>(s: seq<T>, k: nat)
    requires NoDups(s) && k <= |s|
    ensures NoDups(s[..k])
  {
    forall a, b | 0 <= a < b < k ensures s[..k][a] != s[..k][b] {
      assert s[..k][a] == s[a] && s[..k][b] == s[b];
    }
  }

  /** A subset is no larger than its superset. */
  lemma {:induction false} SubsetCard<T>(a: set<T>, b: set<T>)
    requires a <= b
    ensures |a| <= |b|
  {
    if a != {} {
      var x :| x in a;
      SubsetCard(a - {x}, b - {x});
    }
  }

  /** A duplicate-free sequence is as long as the set of its elements. */
  lemma {:induction false} NoDupsCard<T>(s: seq<T>)
    requires NoDups(s)
    ensures |set x | x in s| == |s|
  {
    if s != [] {
      var k := |s| - 1;
      NoDupsPrefix(s, k);
      NoDupsCard(s[..k]);
      assert s[k] !in s[..k] by {
        forall a | 0 <= a < k ensures s[..k][a] != s[k] {
          assert s[..k][a] == s[a];
        }
      }
      assert s == s[..k] + [s[k]];
      assert (set x | x in s) == (set x | x in s[..k]) + {s[k]};
    }
  }

  /** `s.filter(v => v !== x)`. */
  function RemoveAll<T(==)>(s: seq<T>, x: T): seq<T> {
    if s == [] then []
    else if s[0] == x then RemoveAll(s[1..], x)
    else [s[0]] + RemoveAll(s[1..], x)
  }

  /** Filtering out `x` keeps exactly the other values. */
  lemma {:induction false} RemoveAllMembers<T>(s: seq<T>, x: T)
    ensures forall y :: y in RemoveAll(s, x) <==> y in s && y != x
  {
    if s != [] {
      RemoveAllMembers(s[1..], x);
    }
  }

  /** Filtering keeps the other values in their order: nothing changes when `x` is absent. */
  lemma {:induction false} RemoveAllAbsent<T>(s: seq<T>, x: T)
    requires x !in s
    ensures RemoveAll(s, x) == s
  {
    if s != [] {
      RemoveAllAbsent(s[1..], x);
    }
  }

  /** A second filter by the same value changes nothing. */
  lemma RemoveAllIdempotent<T>(s: seq<T>, x: T)
    ensures RemoveAll(RemoveAll(s, x), x) == RemoveAll(s, x)
  {
    RemoveAllMembers(s, x);
    RemoveAllAbsent(RemoveAll(s, x), x);
  }

  lemma {:induction false} RemoveAllNoDups<T>(s: seq<T>, x: T)
    requires NoDups(s)
    ensures NoDups(RemoveAll(s, x))
  {
    if s != [] {
      var t := s[1..];
      assert NoDups(t) by {
        forall i, j | 0 <= i < j < |t| ensures t[i] != t[j] {
          assert t[i] == s[i + 1] && t[j] == s[j + 1];
        }
      }
      RemoveAllNoDups(t, x);
      RemoveAllMembers(t, x);
      if s[0] != x {
        assert s[0] !in t;
        var r := RemoveAll(t, x);
        assert RemoveAll(s, x) == [s[0]] + r;
        assert s[0] !in r;
      }
    }
  }

  /** Filtering out a value just appended, when it was not there before, gives the list back. */
  lemma {:induction false} RemoveAllAppended<T>(s: seq<T>, x: T)
    requires x !in s
    ensures RemoveAll(s + [x], x) == s
  {
    if s == [] {
      assert RemoveAll([x], x) == RemoveAll([], x);
    } else {
      assert (s + [x])[1..] == s[1..] + [x];
      RemoveAllAppended(s[1..], x);
    }
  }

  /** `s.filter(keep)`, in the order of `s`. */
  function Filter<T>(s: seq<T>, keep: T -> bool): seq<T> {
    if s == [] then []
    else (if keep(s[0]) then [s[0]] else []) + Filter(s[1..], keep)
  }

  /** Two tests that agree on every element select the same values. */
  lemma {:induction false} FilterSame<T>(s: seq<T>, a: T -> bool, b: T -> bool)
    requires forall x :: x in s ==> a(x) == b(x)
    ensures Filter(s, a) == Filter(s, b)
  {
    if s != [] {
      FilterSame(s[1..], a, b);
    }
  }

  /** A filter keeps exactly the values `keep` selects. */
  lemma {:induction false} FilterMembers<T>(s: seq<T>, keep: T -> bool)
    ensures forall x :: x in Filter(s, keep) <==> x in s && keep(x)
  {
    if s != [] {
      FilterMembers(s[1..], keep);
      assert s == [s[0]] + s[1..];
    }
  }

  /** A filter of a list without duplicates has none either. */
  lemma {:induction false} FilterNoDups<T>(s: seq<T>, keep: T -> bool)
    requires NoDups(s)
    ensures NoDups(Filter(s, keep))
  {
    if s != [] {
      var t := s[1..];
      assert NoDups(t) by {
        forall i, j | 0 <= i < j < |t| ensures t[i] != t[j] {
          assert t[i] == s[i + 1] && t[j] == s[j + 1];
        }
      }
      FilterNoDups(t, keep);
      FilterMembers(t, keep);
      if keep(s[0]) {
        assert s[0] !in t;
        NoDupsCons(s[0], Filter(t, keep));
      } else {
        assert Filter(s, keep) == Filter(t, keep);
      }
    }
  }

  /** `splice(indexOf(x), 1)`: drop the first occurrence of `x`. */
  function RemoveFirst<T(==)>(s: seq<T>, x: T): seq<T> {
    if s == [] then []
    else if s[0] == x then s[1..]
    else [s[0]] + RemoveFirst(s[1..], x)
  }

  /** Dropping the last element appended, when it was not there before, gives the list back. */
  lemma {:induction false} RemoveFirstAppended<T>(s: seq<T>, x: T)
    requires x !in s
    ensures RemoveFirst(s + [x], x) == s
  {
    if s != [] {
      assert (s + [x])[1..] == s[1..] + [x];
      RemoveFirstAppended(s[1..], x);
    }
  }

  /** Dropping the first occurrence is `splice` at `indexOf`. */
  lemma {:induction false} RemoveFirstSplice<T>(s: seq<T>, x: T)
    requires x in s
    ensures RemoveFirst(s, x) == s[..IndexOf(s, x)] + s[IndexOf(s, x) + 1..]
  {
    if s[0] != x {
      RemoveFirstSplice(s[1..], x);
      var k := IndexOf(s[1..], x);
      assert s[..k + 1] == [s[0]] + s[1..][..k];
      assert s[k + 2..] == s[1..][k + 1..];
    }
  }

  /** Without duplicates, dropping the first occurrence removes every occurrence. */
  lemma {:induction false} RemoveFirstNoDups<T>(s: seq<T>, x: T)
    requires NoDups(s)
    ensures RemoveFirst(s, x) == RemoveAll(s, x)
  {
    if s != [] {
      if s[0] == x {
        assert x !in s[1..];
        RemoveAllAbsent(s[1..], x);
      } else {
        RemoveFirstNoDups(s[1..], x);
      }
    }
  }

  /** Position of the first occurrence. */
  function IndexOf<T(==)>(s: seq<T>, x: T): (k: nat)
    requires x in s
    ensures k < |s| && s[k] == x && x !in s[..k]
  {
    if s[0] == x then 0 else 1 + IndexOf(s[1..], x)
  }

  lemma IndexOfExtend<T>(s: seq<T>, y: T, x: T)
    requires x in s
    ensures IndexOf(s + [y], x) == IndexOf(s, x)
  {
    var t := s + [y];
    var i1 := IndexOf(t, x);
    var i2 := IndexOf(s, x);
    assert t[i2] == x;
    assert forall k :: 0 <= k < i1 ==> t[k] != x by {
      forall k | 0 <= k < i1 ensures t[k] != x {
        assert t[k] == t[..i1][k];
      }
    }
    assert i1 <= i2;
    assert s[i1] == x;
    assert forall k :: 0 <= k < i2 ==> s[k] != x by {
      forall k | 0 <= k < i2 ensures s[k] != x {
        assert s[k] == s[..i2][k];
      }
    }
  }

  // ---------------------------------------------------------------------
  // Newest first

  /** The members of `order` (oldest first) that `keep` selects, newest first:
      what `find(filter).sort({ createdAt: -1 })` returns when `order` is the
      insertion order of the collection. */
  function NewestFirst<T>(order: seq<T>, keep: T -> bool): seq<T> {
    if order == [] then []
    else
      var last := order[|order| - 1];
      (if keep(last) then [last] else []) + NewestFirst(order[..|order| - 1], keep)
  }

  /** `r` lists members of `order` strictly newest (latest inserted) first. */
  ghost predicate NewestFirstOf<T(!new)>(r: seq<T>, order: seq<T>) {
    forall i, j :: 0 <= i < j < |r| ==> r[i] in order && r[j] in order && IndexOf(order, r[i]) > IndexOf(order, r[j])
  }

  /** A listing holds exactly the records `keep` selects. */
  lemma {:induction false} NewestFirstMembers<T>(order: seq<T>, keep: T -> bool)
    ensures forall x :: x in NewestFirst(order, keep) <==> x in order && keep(x)
  {
    if order != [] {
      var pre := order[..|order| - 1];
      assert order == pre + [order[|order| - 1]];
      NewestFirstMembers(pre, keep);
    }
  }

  lemma LastNotInPrefix<T>(order: seq<T>)
    requires NoDups(order) && order != []
    ensures order[|order| - 1] !in order[..|order| - 1]
    ensures NoDups(order[..|order| - 1])
    ensures IndexOf(order, order[|order| - 1]) == |order| - 1
  {
    var n := |order|;
    var pre := order[..n - 1];
    forall k | 0 <= k < n - 1 ensures pre[k] != order[n - 1] {
      assert pre[k] == order[k];
    }
    forall i, j | 0 <= i < j < n - 1 ensures pre[i] != pre[j] {
      assert pre[i] == order[i] && pre[j] == order[j];
    }
  }

  lemma NewestFirstOfExtend<T(!new)>(rest: seq<T>, pre: seq<T>, last: T)
    requires NewestFirstOf(rest, pre)
    requires forall x :: x in rest ==> x in pre
    ensures NewestFirstOf(rest, pre + [last])
  {
    forall x | x in rest ensures IndexOf(pre + [last], x) == IndexOf(pre, x) {
      IndexOfExtend(pre, last, x);
    }
  }

  lemma NewestFirstOfCons<T(!new)>(rest: seq<T>, order: seq<T>, last: T)
    requires NewestFirstOf(rest, order)
    requires last in order
    requires forall x :: x in rest ==> x in order && IndexOf(order, x) < IndexOf(order, last)
    ensures NewestFirstOf([last] + rest, order)
  {
    var r := [last] + rest;
    forall i, j | 0 <= i < j < |r|
      ensures r[i] in order && r[j] in order && IndexOf(order, r[i]) > IndexOf(order, r[j])
    {
      assert r[j] == rest[j - 1];
      if i > 0 {
        assert r[i] == rest[i - 1];
      }
    }
  }

  lemma NoDupsCons<T>(x: T, s: seq<T>)
    requires NoDups(s) && x !in s
    ensures NoDups([x] + s)
  {
    var r := [x] + s;
    forall i, j | 0 <= i < j < |r| ensures r[i] != r[j] {
      assert r[j] == s[j - 1];
      if i > 0 {
        assert r[i] == s[i - 1];
      }
    }
  }

  /** A listing holds each selected record once, strictly newest first. */
  lemma {:induction false} NewestFirstOrder<T(!new)>(order: seq<T>, keep: T -> bool)
    requires NoDups(order)
    ensures NoDups(NewestFirst(order, keep))
    ensures NewestFirstOf(NewestFirst(order, keep), order)
  {
    if order != [] {
      var n := |order|;
      var last := order[n - 1];
      var pre := order[..n - 1];
      assert order == pre + [last];
      LastNotInPrefix(order);
      NewestFirstOrder(pre, keep);
      NewestFirstMembers(pre, keep);
      var rest := NewestFirst(pre, keep);
      NewestFirstOfExtend(rest, pre, last);
      if keep(last) {
        assert NewestFirst(order, keep) == [last] + rest;
        forall x | x in rest ensures x in order && IndexOf(order, x) < IndexOf(order, last) {
          IndexOfExtend(pre, last, x);
        }
        NewestFirstOfCons(rest, order, last);
        NoDupsCons(last, rest);
      } else {
        assert NewestFirst(order, keep) == rest;
      }
    }
  }
}
