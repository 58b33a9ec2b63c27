/**
 What becomes of an audit payload between hashing and verifying: `_canonical` and `event_hash` of
 services/shared/audit.py hash it, the event's JSON dump and services/shared/dynamo.py store it, and
 reading it back hashes the dump of what was stored.
 */
module Storage {
  import opened Basics

  // ----- Decimal numbers and their spellings -----

  /** Python's Decimal: a sign, a coefficient and a power of ten. */
  datatype Decimal = Decimal(negative: bool, coefficient: nat, exponent: int)

  function Zeros(n: nat): (zeros: string)
    ensures |zeros| == n
  {
    if n == 0 then "" else Zeros(n - 1) + "0"
  }

  /** A number of `places` decimal places, `places` at least one. */
  function Pointed(n: nat, places: nat): string {
    var digits := Digits(n);
    var padded := if |digits| <= places then Zeros(places + 1 - |digits|) + digits else digits;
    padded[..|padded| - places] + "." + padded[|padded| - places..]
  }

  function Signed(d: Decimal, digits: string): string {
    if d.negative then "-" + digits else digits
  }

  /** Written out in full, without an exponent. */
  function Full(n: nat, exponent: int): string {
    if exponent >= 0 then Digits(n) + Zeros(exponent) else Pointed(n, -exponent)
  }

  /** `normalize`: trailing zeros go into the exponent. */
  function Normalized(n: nat, exponent: int): (nat, int)
    decreases n
  {
    if n == 0 then (0, 0) else if n % 10 == 0 then Normalized(n / 10, exponent + 1) else (n, exponent)
  }

  /** The hashed spelling of a number: normalised, then written out in full. */
  function Hashed(d: Decimal): string {
    var (n, exponent) := Normalized(d.coefficient, d.exponent);
    Signed(d, Full(n, exponent))
  }

  function Scientific(n: nat, exponent: int): string {
    var digits := Digits(n);
    var power := exponent + |digits| - 1;
    digits[..1] + (if |digits| > 1 then "." + digits[1..] else "")
    + "E" + (if power >= 0 then "+" + Digits(power) else "-" + Digits(-power))
  }

  /** No exponent is written for whole numbers and for fractions that are not too small. */
  predicate WrittenInFull(d: Decimal) {
    d.exponent <= 0 && d.exponent + |Digits(d.coefficient)| > -6
  }

  /** Python's `str` of a Decimal, which is what its JSON dump writes. */
  function Spelled(d: Decimal): string {
    Signed(d, if WrittenInFull(d) then Full(d.coefficient, d.exponent) else Scientific(d.coefficient, d.exponent))
  }

  /** In full, and without a trailing zero behind the point. */
  predicate Plain(d: Decimal) {
    WrittenInFull(d) && (d.exponent == 0 || d.coefficient % 10 != 0)
  }

  lemma {:induction false} OnlyDigits(n: nat)
    ensures Digits(n) != "" && 'E' !in Digits(n) && '.' !in Digits(n)
  {
    if n >= 10 {
      OnlyDigits(n / 10);
    }
  }

  lemma {:induction false} OnlyZeros(n: nat)
    ensures 'E' !in Zeros(n) && '.' !in Zeros(n)
  {
    if n > 0 {
      OnlyZeros(n - 1);
    }
  }

  /** The point stands before the last `places` digits, and nowhere else. */
  lemma PointStands(n: nat, places: nat)
    requires places > 0
    ensures var s := Pointed(n, places);
      && |s| > places + 1 && s[|s| - 1 - places] == '.' && 'E' !in s
      && forall i :: 0 <= i < |s| && s[i] == '.' ==> i == |s| - 1 - places
  {
    OnlyDigits(n);
    var digits := Digits(n);
    OnlyZeros(if |digits| <= places then places + 1 - |digits| else 0);
    var padded := if |digits| <= places then Zeros(places + 1 - |digits|) + digits else digits;
    assert |padded| > places && 'E' !in padded && '.' !in padded;
    var s := Pointed(n, places);
    assert s == padded[..|padded| - places] + "." + padded[|padded| - places..];
    hide Digits, Zeros, Pointed;
    assert forall i :: 0 <= i < |padded| ==> padded[i] != '.';
    assert forall i :: 0 <= i < |padded| - places ==> s[i] == padded[i];
    assert forall i :: |padded| - places < i < |s| ==> s[i] == padded[i - 1];
  }

  lemma {:induction false} NormalizedGrows(n: nat, exponent: int)
    ensures var (m, e) := Normalized(n, exponent); n > 0 ==> m > 0 && m % 10 != 0 && e >= exponent
    decreases n
  {
    if n > 0 && n % 10 == 0 {
      NormalizedGrows(n / 10, exponent + 1);
    }
  }

  lemma {:induction false} ZerosSnoc(n: nat)
    ensures "0" + Zeros(n) == Zeros(n + 1)
  {
    if n > 0 {
      ZerosSnoc(n - 1);
      assert "0" + Zeros(n) == "0" + Zeros(n - 1) + "0";
    }
  }

  /** Normalising a whole number does not change how it is written in full. */
  lemma {:induction false} WholeInFull(n: nat, exponent: nat)
    requires n > 0 || exponent == 0
    ensures var (m, e) := Normalized(n, exponent); e >= 0 && Full(m, e) == Digits(n) + Zeros(exponent)
    decreases n
  {
    if n > 0 && n % 10 == 0 {
      WholeInFull(n / 10, exponent + 1);
      ZerosSnoc(exponent);
      assert Digits(n) == Digits(n / 10) + "0";
      assert Digits(n / 10) + "0" + Zeros(exponent) == Digits(n / 10) + ("0" + Zeros(exponent));
    }
  }

  lemma ScientificHasExponent(n: nat, exponent: int)
    ensures 'E' in Scientific(n, exponent)
  {
    OnlyDigits(n);
    var digits := Digits(n);
    var head := digits[..1] + (if |digits| > 1 then "." + digits[1..] else "");
    assert Scientific(n, exponent)[|head|] == 'E';
  }

  lemma FullHasNoExponent(n: nat, exponent: int)
    ensures 'E' !in Full(n, exponent) && (exponent >= 0 ==> '.' !in Full(n, exponent))
  {
    OnlyDigits(n);
    if exponent >= 0 {
      OnlyZeros(exponent);
    } else {
      PointStands(n, -exponent);
    }
  }

  lemma PointsApart(s: string, t: string, p: int, q: int)
    requires 0 <= |s| - 1 - p < |s| && s[|s| - 1 - p] == '.' && p != q
    requires '.' in t ==> forall i :: 0 <= i < |t| && t[i] == '.' ==> i == |t| - 1 - q
    ensures s != t
  {
    assert s[|s| - 1 - p] in s;
  }

  /** With fewer places behind the point, or none, a number is written otherwise. */
  lemma PlacesShow(m: nat, e: int, n: nat, exponent: int)
    requires exponent < 0 && exponent < e
    ensures Full(m, e) != Full(n, exponent)
  {
    PointStands(n, -exponent);
    FullHasNoExponent(m, e);
    if e < 0 {
      PointStands(m, -e);
    }
    var s, t := Full(n, exponent), Full(m, e);
    hide Pointed, Digits, Zeros;
    PointsApart(s, t, -exponent, -e);
  }

  /** A fraction that ends in zeros is written longer than its normal form. */
  lemma TrailingZeroShows(n: nat, exponent: int)
    requires exponent < 0 && n % 10 == 0
    ensures var (m, e) := Normalized(n, exponent); Full(m, e) != Full(n, exponent)
  {
    var (m, e) := Normalized(n, exponent);
    hide Full;
    if n > 0 {
      NormalizedGrows(n / 10, exponent + 1);
    }
    PlacesShow(m, e, n, exponent);
  }

  /** A number is dumped as it is hashed exactly when its spelling is plain. */
  lemma SpelledAsHashed(d: Decimal)
    ensures Spelled(d) == Hashed(d) <==> Plain(d)
  {
    var (n, exponent) := Normalized(d.coefficient, d.exponent);
    SignedAlike(d, if WrittenInFull(d) then Full(d.coefficient, d.exponent) else Scientific(d.coefficient, d.exponent),
                Full(n, exponent));
    if !WrittenInFull(d) {
      ScientificHasExponent(d.coefficient, d.exponent);
      FullHasNoExponent(n, exponent);
    } else if d.exponent == 0 {
      WholeInFull(d.coefficient, 0);
      assert Digits(d.coefficient) + Zeros(0) == Digits(d.coefficient);
    } else if d.coefficient % 10 == 0 {
      TrailingZeroShows(d.coefficient, d.exponent);
    }
  }

  lemma SignedAlike(d: Decimal, a: string, b: string)
    ensures Signed(d, a) == Signed(d, b) <==> a == b
  {
    assert ("-" + a)[1..] == a && ("-" + b)[1..] == b;
  }

  // ----- Whole numbers -----

  /** Equal to its own integral value. */
  predicate IsWhole(d: Decimal) {
    Normalized(d.coefficient, d.exponent).1 >= 0
  }

  predicate NegativeZero(d: Decimal) {
    d.negative && d.coefficient == 0
  }

  function TimesTen(n: nat, times: nat): nat {
    if times == 0 then n else TimesTen(n, times - 1) * 10
  }

  lemma {:induction false} TimesTenAtLeast(n: nat, m: nat, k: nat)
    ensures n <= m ==> TimesTen(n, k) <= TimesTen(m, k)
    ensures n < m ==> TimesTen(n, k) < TimesTen(m, k)
  {
    if k > 0 {
      TimesTenAtLeast(n, m, k - 1);
    }
  }

  lemma {:induction false} TimesTenTwice(n: nat, j: nat, k: nat)
    ensures TimesTen(TimesTen(n, j), k) == TimesTen(n, j + k)
  {
    if k > 0 {
      TimesTenTwice(n, j, k - 1);
    }
  }

  lemma {:induction false} TimesTenGrows(j: nat, k: nat)
    requires j <= k
    ensures 0 < TimesTen(1, j) <= TimesTen(1, k)
    decreases k
  {
    if j < k {
      TimesTenGrows(j, k - 1);
    } else if j > 0 {
      TimesTenGrows(j - 1, k - 1);
    }
  }

  /** The integer has the value of the number, whichever way the power of ten goes. */
  predicate HasValue(n: nat, exponent: int, w: nat) {
    if exponent >= 0 then w == TimesTen(n, exponent) else TimesTen(w, -exponent) == n
  }

  lemma TenfoldValue(n: nat, exponent: int, w: nat)
    requires exponent <= 0
    ensures HasValue(n * 10, exponent - 1, w) <==> HasValue(n, exponent, w)
  {
    var k := -exponent;
    assert TimesTen(w, k + 1) == TimesTen(w, k) * 10;
  }

  lemma EndsInZero(n: nat, times: nat)
    requires times > 0
    ensures TimesTen(n, times) % 10 == 0
  {}

  /** A number is whole exactly when an integer has its value. */
  lemma {:induction false} WholeExactly(n: nat, exponent: int)
    ensures Normalized(n, exponent).1 >= 0 <==> exists w :: HasValue(n, exponent, w)
    decreases n
  {
    if exponent >= 0 {
      NormalizedGrows(n, exponent);
      assert HasValue(n, exponent, TimesTen(n, exponent));
    } else if n == 0 {
      ZeroTimesTen(-exponent);
      assert HasValue(0, exponent, 0);
    } else if n % 10 == 0 {
      var m, up := n / 10, exponent + 1;
      WholeExactly(m, up);
      assert n == m * 10 && Normalized(n, exponent) == Normalized(m, up);
      if w :| HasValue(m, up, w) {
        TenfoldValue(m, up, w);
      }
      if w :| HasValue(n, exponent, w) {
        TenfoldValue(m, up, w);
      }
    } else {
      if w :| HasValue(n, exponent, w) {
        EndsInZero(w, -exponent);
      }
    }
  }

  lemma {:induction false} ZeroTimesTen(k: nat)
    ensures TimesTen(0, k) == 0
  {
    if k > 0 {
      ZeroTimesTen(k - 1);
    }
  }

  lemma {:induction false} DigitsCount(n: nat)
    requires n > 0
    ensures |Digits(n)| > 0 && TimesTen(1, |Digits(n)| - 1) <= n < TimesTen(1, |Digits(n)|)
  {
    if n >= 10 {
      DigitsCount(n / 10);
    }
  }

  /**
   A number is written in full exactly when it has no positive exponent and is no smaller than a millionth; zero
   when it has at most six decimal places.
   */
  lemma FullExactly(d: Decimal)
    ensures WrittenInFull(d) <==>
      && d.exponent <= 0
      && if d.coefficient == 0 then d.exponent >= -6
         else TimesTen(d.coefficient, 6) >= TimesTen(1, -d.exponent)
  {
    var n, e := d.coefficient, d.exponent;
    if n > 0 && e <= 0 {
      DigitsCount(n);
      var length := |Digits(n)|;
      TimesTenAtLeast(TimesTen(1, length - 1), n, 6);
      TimesTenAtLeast(n, TimesTen(1, length), 6);
      TimesTenTwice(1, length - 1, 6);
      TimesTenTwice(1, length, 6);
      hide TimesTen;
      if e + length > -6 {
        TimesTenGrows(-e, length + 5);
      } else {
        TimesTenGrows(length + 6, -e);
      }
    }
  }

  /** `int` of a whole number. */
  function Units(d: Decimal): int
    requires IsWhole(d)
  {
    var (n, exponent) := Normalized(d.coefficient, d.exponent);
    if d.negative then -(TimesTen(n, exponent) as int) else TimesTen(n, exponent)
  }

  /** How an integer is hashed. */
  function Integer(n: int): string {
    if n < 0 then "-" + Digits(-n) else Digits(n)
  }

  lemma {:induction false} TimesTenDigits(n: nat, times: nat)
    requires n > 0
    ensures TimesTen(n, times) > 0 && Digits(TimesTen(n, times)) == Digits(n) + Zeros(times)
  {
    if times > 0 {
      TimesTenDigits(n, times - 1);
      var before := TimesTen(n, times - 1);
      assert Digits(before * 10) == Digits(before) + "0";
      assert Digits(n) + Zeros(times - 1) + "0" == Digits(n) + (Zeros(times - 1) + "0");
    }
  }

  /** A whole number read back as an integer is hashed as before, unless it was minus zero. */
  lemma WholeAsHashed(d: Decimal)
    requires IsWhole(d)
    ensures Integer(Units(d)) == Hashed(d) <==> !NegativeZero(d)
  {
    var (n, exponent) := Normalized(d.coefficient, d.exponent);
    NormalizedGrows(d.coefficient, d.exponent);
    if d.coefficient > 0 {
      TimesTenDigits(n, exponent);
    } else {
      assert Zeros(0) == "" && Digits(0) + "" == Digits(0);
      assert TimesTen(0, 0) == 0;
    }
  }

  // ----- Values -----

  /** A payload value. `Moment` stands for dates and the like: as `str` spells them, and as the dump does. */
  datatype Value =
    | Null
    | Bool(b: bool)
    | Text(text: string)
    | Whole(n: int)
    | Float(d: Decimal)
    | Exact(d: Decimal)
    | Moment(spelled: string, dumped: string)
    | List(items: seq<Value>)
    | Map(fields: map<string, Value>)

  /** `_canonical`: what is hashed. */
  function Canonical(v: Value): Value {
    match v
    case List(items) => List(seq(|items|, i requires 0 <= i < |items| => Canonical(items[i])))
    case Map(fields) => Map(map key | key in fields :: Canonical(fields[key]))
    case Whole(n) => Text(Integer(n))
    case Float(d) => Text(Hashed(d))
    case Exact(d) => Text(Hashed(d))
    case Moment(spelled, _) => Text(spelled)
    case _ => v
  }

  /** `model_dump(mode="json")` of the event: decimals and dates become text. */
  function Dumped(v: Value): Value {
    match v
    case List(items) => List(seq(|items|, i requires 0 <= i < |items| => Dumped(items[i])))
    case Map(fields) => Map(map key | key in fields :: Dumped(fields[key]))
    case Exact(d) => Text(Spelled(d))
    case Moment(_, dumped) => Text(dumped)
    case _ => v
  }

  function Number(d: Decimal): Value {
    if IsWhole(d) then Whole(Units(d)) else Exact(d)
  }

  /** `_plain` and back through `_python`: fields that are None are not stored, floats come back as decimals. */
  function Stored(v: Value): Value {
    match v
    case List(items) => List(seq(|items|, i requires 0 <= i < |items| => Stored(items[i])))
    case Map(fields) => Map(map key | key in fields && fields[key] != Null :: Stored(fields[key]))
    case Float(d) => Number(d)
    case Exact(d) => Number(d)
    case Moment(_, dumped) => Text(dumped)
    case _ => v
  }

  /** What verifying hashes: the dump of what storage kept of the dump. */
  function Reloaded(v: Value): Value {
    Dumped(Stored(Dumped(v)))
  }

  // ----- What survives -----

  /** Nothing in the value is hashed otherwise once it has been stored. */
  predicate Lasts(v: Value) {
    match v
    case List(items) => forall i :: 0 <= i < |items| ==> Lasts(items[i])
    case Map(fields) => forall key :: key in fields ==> fields[key] != Null && Lasts(fields[key])
    case Float(d) => if IsWhole(d) then !NegativeZero(d) else Plain(d)
    case Exact(d) => Plain(d)
    case Moment(spelled, dumped) => spelled == dumped
    case _ => true
  }

  predicate Survives(v: Value) {
    Canonical(Reloaded(v)) == Canonical(v)
  }

  /**
   The hashed form survives dumping, storing and reading back exactly when the value, at any depth, has no
   field that is None, no decimal that is not spelled plainly, no float that is minus zero or neither whole
   nor plain, and no date that `str` spells unlike the dump.
   */
  lemma {:induction false} CanonicalSurvivesStorage(v: Value)
    ensures Survives(v) <==> Lasts(v)
  {
    match v
    case List(items) =>
      forall i | 0 <= i < |items| ensures Survives(items[i]) <==> Lasts(items[i]) {
        CanonicalSurvivesStorage(items[i]);
      }
      ListSurvives(items);
    case Map(fields) =>
      forall key | key in fields ensures Survives(fields[key]) <==> Lasts(fields[key]) {
        CanonicalSurvivesStorage(fields[key]);
      }
      MapSurvives(fields);
    case Float(d) => FloatSurvives(d);
    case Exact(d) => SpelledAsHashed(d);
    case _ =>
  }

  lemma FloatSurvives(d: Decimal)
    ensures Survives(Float(d)) <==> Lasts(Float(d))
  {
    hide Spelled, Hashed, Integer, Units, Plain;
    if IsWhole(d) {
      WholeAsHashed(d);
    } else {
      SpelledAsHashed(d);
    }
  }

  lemma ListSurvives(items: seq<Value>)
    requires forall i :: 0 <= i < |items| ==> (Survives(items[i]) <==> Lasts(items[i]))
    ensures Survives(List(items)) <==> Lasts(List(items))
  {
    var once, twice := Canonical(List(items)).items, Canonical(Reloaded(List(items))).items;
    assert |once| == |twice| == |items|;
    assert forall i :: 0 <= i < |items| ==> once[i] == Canonical(items[i]) && twice[i] == Canonical(Reloaded(items[i]));
    if Lasts(List(items)) {
      assert once == twice;
    } else {
      var i :| 0 <= i < |items| && !Lasts(items[i]);
      assert once[i] != twice[i];
    }
  }

  lemma MapSurvives(fields: map<string, Value>)
    requires forall key :: key in fields ==> (Survives(fields[key]) <==> Lasts(fields[key]))
    ensures Survives(Map(fields)) <==> Lasts(Map(fields))
  {
    CanonicalOf(fields);
    MapReloaded(fields);
    MapLasts(fields);
    hide Canonical, Reloaded, Lasts;
    NullsDropped(fields, Canonical(Map(fields)).fields, Canonical(Reloaded(Map(fields))).fields);
  }

  lemma CanonicalOf(fields: map<string, Value>)
    ensures Canonical(Map(fields)).Map? && Canonical(Map(fields)).fields.Keys == fields.Keys
    ensures forall key :: key in fields ==> Canonical(Map(fields)).fields[key] == Canonical(fields[key])
  {}

  lemma DumpedOf(fields: map<string, Value>)
    ensures Dumped(Map(fields)).Map? && Dumped(Map(fields)).fields.Keys == fields.Keys
    ensures forall key :: key in fields ==> Dumped(Map(fields)).fields[key] == Dumped(fields[key])
  {}

  lemma StoredOf(fields: map<string, Value>)
    ensures Stored(Map(fields)).Map?
    ensures forall key :: key in Stored(Map(fields)).fields <==> key in fields && fields[key] != Null
    ensures forall key :: key in Stored(Map(fields)).fields ==> Stored(Map(fields)).fields[key] == Stored(fields[key])
  {}

  lemma DumpedNull(v: Value)
    ensures Dumped(v) == Null <==> v == Null
  {}

  /** Of a map the fields that are not None come back, each reloaded. */
  lemma MapReloaded(fields: map<string, Value>)
    ensures var back := Canonical(Reloaded(Map(fields)));
      && back.Map? && (forall key :: key in back.fields <==> key in fields && fields[key] != Null)
      && forall key :: key in back.fields ==> back.fields[key] == Canonical(Reloaded(fields[key]))
  {
    hide Dumped, Stored, Canonical;
    DumpedOf(fields);
    var dumped := Dumped(Map(fields)).fields;
    StoredOf(dumped);
    var stored := Stored(Map(dumped)).fields;
    DumpedOf(stored);
    var again := Dumped(Map(stored)).fields;
    CanonicalOf(again);
    forall key | key in fields ensures dumped[key] == Null <==> fields[key] == Null {
      DumpedNull(fields[key]);
    }
    assert Reloaded(Map(fields)) == Map(again);
  }

  lemma MapLasts(fields: map<string, Value>)
    ensures Lasts(Map(fields)) <==> forall key :: key in fields ==> fields[key] != Null && Lasts(fields[key])
  {}

  lemma NullsDropped(fields: map<string, Value>, once: map<string, Value>, twice: map<string, Value>)
    requires once.Keys == fields.Keys
    requires forall key :: key in twice <==> key in fields && fields[key] != Null
    ensures once == twice <==> forall key :: key in fields ==> fields[key] != Null && once[key] == twice[key]
  {
    if forall key :: key in fields ==> fields[key] != Null && once[key] == twice[key] {
      assert twice.Keys == once.Keys;
    } else {
      var key :| key in fields && !(fields[key] != Null && once[key] == twice[key]);
      assert key in once;
    }
  }

  /** A second trip through storage changes nothing. */
  lemma {:induction false} StoredOnce(v: Value)
    ensures Stored(Stored(v)) == Stored(v) && (v != Null ==> Stored(v) != Null)
  {
    match v
    case List(items) =>
      forall i | 0 <= i < |items| ensures Stored(Stored(items[i])) == Stored(items[i]) {
        StoredOnce(items[i]);
      }
      assert Stored(Stored(v)).items == Stored(v).items;
    case Map(fields) =>
      forall key | key in fields
        ensures Stored(Stored(fields[key])) == Stored(fields[key])
                && (fields[key] != Null ==> Stored(fields[key]) != Null)
      {
        StoredOnce(fields[key]);
      }
      assert Stored(Stored(v)).fields == Stored(v).fields;
    case _ =>
  }

  // ----- Findings -----

  /** A number and the string that spells it are one to the hash, so payloads compare modulo this. */
  lemma NumberAndSpellingAlike(d: Decimal)
    ensures Canonical(Exact(d)) == Canonical(Text(Hashed(d))) && Exact(d) != Text(Hashed(d))
  {}

  lemma OnePointFive()
    ensures Hashed(Decimal(false, 150, -2)) == "1.5" && Spelled(Decimal(false, 150, -2)) == "1.50"
  {
    assert Digits(1) == "1" && Digits(15) == "15" && Digits(150) == "150";
    assert Normalized(150, -2) == Normalized(15, -1) == (15, -1);
    assert Pointed(15, 1) == "1.5" && Pointed(150, 2) == "1.50";
  }

  lemma TenMillionth()
    ensures Hashed(Decimal(false, 1, -7)) == "0.0000001" && Spelled(Decimal(false, 1, -7)) == "1E-7"
    ensures !IsWhole(Decimal(false, 1, -7))
  {
    assert Digits(1) == "1" && Digits(7) == "7" && Normalized(1, -7) == (1, -7);
    assert Zeros(7) == "0000000" by {
      assert Zeros(3) == "000" && Zeros(5) == "00000";
    }
    assert Pointed(1, 7) == "0.0000001" && Scientific(1, -7) == "1E-7";
  }

  /** A rate of 1.50 is hashed as 1.5 and read back as the text 1.50; a float of 1e-7 comes back with an exponent. */
  lemma SpellingsLost()
    ensures var rate, tiny := Decimal(false, 150, -2), Decimal(false, 1, -7);
      && Canonical(Exact(rate)) == Text("1.5") && Canonical(Reloaded(Exact(rate))) == Text("1.50")
      && Canonical(Float(tiny)) == Text("0.0000001") && Canonical(Reloaded(Float(tiny))) == Text("1E-7")
  {
    OnePointFive();
    TenMillionth();
    hide Hashed, Spelled, IsWhole;
  }
}
