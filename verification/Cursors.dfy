// Checkpoint cursors: infra/checkpoints.py keeps them as text, and _max_cursor of sentinel/onchain_collector.py
// compares them as numbers when it can.
module Cursors {
  import opened Schemas
  import opened Ordering

  function Digit(d: nat): char
    requires d < 10
  {
    d as char + '0'
  }

  function Digits(n: nat): string {
    if n < 10 then [Digit(n)] else Digits(n / 10) + [Digit(n % 10)]
  }

  // str(n)
  function Str(n: int): string { if n < 0 then "-" + Digits(-n) else Digits(n) }

  predicate IsDigit(c: char) { '0' <= c <= '9' }

  function DigitsValue(s: string): Option<nat> {
    if s == [] || !IsDigit(s[|s| - 1]) then None
    else
      var d := (s[|s| - 1] - '0') as nat;
      if |s| == 1 then Some(d)
      else match DigitsValue(s[..|s| - 1])
        case None => None
        case Some(v) => Some(10 * v + d)
  }

  // int(s); None is its ValueError
  function Int(s: string): Option<int> {
    if s != [] && s[0] == '-' then
      match DigitsValue(s[1..])
      case None => None
      case Some(v) => Some(0 - v)
    else
      match DigitsValue(s)
      case None => None
      case Some(v) => Some(v)
  }

  lemma {:induction false} DigitsRoundTrip(n: nat)
    ensures Digits(n) != [] && IsDigit(Digits(n)[0]) && DigitsValue(Digits(n)) == Some(n)
  {
    if n >= 10 {
      var rest := Digits(n / 10);
      DigitsRoundTrip(n / 10);
      assert Digits(n)[..|Digits(n)| - 1] == rest;
    }
  }

  lemma IntOfStr(n: int)
    ensures Int(Str(n)) == Some(n)
  {
    if n < 0 {
      DigitsRoundTrip(-n);
      assert Str(n)[1..] == Digits(-n);
    } else {
      DigitsRoundTrip(n);
    }
  }

  // _max_cursor
  function MaxCursor(current: Option<string>, candidate: string): string {
    match current
    case None => candidate
    case Some(c) =>
      if Int(candidate).Some? && Int(c).Some? then
        if Int(candidate).value > Int(c).value then candidate else c
      else if TextBefore(c, candidate) then candidate else c
  }

  // Numbers are compared as numbers: "9" does not beat "10".
  lemma MaxCursorOfNumbers(a: int, b: int)
    ensures MaxCursor(Some(Str(a)), Str(b)) == Str(if b > a then b else a)
  {
    IntOfStr(a);
    IntOfStr(b);
  }

  // --- texts that are not numbers ----------------------------------------------------------------

  // The first character that is not a nine sorts after it.
  predicate PastNines(c: string) {
    exists k | 0 <= k < |c| :: c[k] > '9' && NinesBefore(c, k)
  }

  predicate NinesBefore(c: string, k: nat)
    requires k <= |c|
  {
    forall j | 0 <= j < k :: c[j] == '9'
  }

  lemma {:induction false} DigitsAreDigits(n: nat)
    ensures Digits(n) != [] && forall i | 0 <= i < |Digits(n)| :: IsDigit(Digits(n)[i])
  {
    if n >= 10 {
      DigitsAreDigits(n / 10);
    }
  }

  // No text that starts like a number sorts after one that is past the nines.
  lemma {:induction false} PastDigits(c: string, digits: string, k: nat)
    requires k < |c| && c[k] > '9' && NinesBefore(c, k)
    requires forall i | 0 <= i < |digits| :: IsDigit(digits[i])
    ensures !TextBefore(c, digits)
    decreases k
  {
    if k > 0 && digits != [] && c[0] == digits[0] {
      PastDigits(c[1..], digits[1..], k - 1);
    }
  }

  lemma SlotNotAfter(c: string, slot: int)
    requires PastNines(c)
    ensures !TextBefore(c, Str(slot))
  {
    var k :| 0 <= k < |c| && c[k] > '9' && NinesBefore(c, k);
    if slot < 0 {
      assert Str(slot)[0] == '-';
    } else {
      DigitsAreDigits(slot);
      PastDigits(c, Digits(slot), k);
    }
  }

  // 10^n - 1
  function NinesValue(n: nat): nat { if n <= 1 then 9 else 10 * NinesValue(n - 1) + 9 }

  function Nines(n: nat): string { seq(n, _ => '9') }

  lemma {:induction false} NinesDigits(n: nat)
    requires n > 0
    ensures NinesValue(n) >= 9 && Digits(NinesValue(n)) == Nines(n)
    ensures DigitsValue(Nines(n)) == Some(NinesValue(n))
  {
    if n > 1 {
      NinesDigits(n - 1);
      assert Nines(n) == Nines(n - 1) + ['9'];
      DigitsOfNine(NinesValue(n - 1));
    } else {
      assert Nines(1) == ['9'];
    }
    DigitsRoundTrip(NinesValue(n));
  }

  lemma DigitsOfNine(m: nat)
    requires m > 0
    ensures Digits(10 * m + 9) == Digits(m) + ['9']
  {
    assert (10 * m + 9) / 10 == m && (10 * m + 9) % 10 == 9;
  }

  lemma AllNines(c: string)
    requires c != [] && NinesBefore(c, |c|)
    ensures Int(c).Some?
  {
    NinesDigits(|c|);
    assert c == Nines(|c|);
  }

  // Where a text falls below the nines, enough nines sort after it.
  lemma {:induction false} NinesBeat(c: string, n: nat, k: nat)
    requires k < n && k <= |c| && NinesBefore(c, k) && (k < |c| ==> c[k] < '9')
    ensures TextBefore(c, Nines(n))
    decreases k
  {
    if k > 0 {
      assert Nines(n)[1..] == Nines(n - 1);
      NinesBeat(c[1..], n - 1, k - 1);
    }
  }

  // How many nines a text starts with.
  function Leading(c: string): (k: nat)
    ensures k <= |c| && NinesBefore(c, k) && (k < |c| ==> c[k] != '9')
  {
    if c == [] || c[0] != '9' then 0 else
      LeadingStep(c);
      Leading(c[1..]) + 1
  }

  lemma LeadingStep(c: string)
    requires c != [] && c[0] == '9'
    ensures forall k: nat | k <= |c[1..]| && NinesBefore(c[1..], k) :: NinesBefore(c, k + 1)
  {
    forall k: nat | k <= |c[1..]| && NinesBefore(c[1..], k)
      ensures NinesBefore(c, k + 1)
    {
      forall j | 0 <= j < k + 1
        ensures c[j] == '9'
      {
        assert j > 0 ==> c[j] == c[1..][j - 1];
      }
    }
  }

  // A cursor that no slot replaces.
  ghost predicate Stuck(c: string) { forall slot: int :: MaxCursor(Some(c), Str(slot)) == c }

  // A text that is not a number sticks exactly when it is past the nines: such as the request id "9f3a" that the
  // quote collector saves under the same key.
  lemma TextCursorSticksExactly(c: string)
    requires Int(c) == None
    ensures Stuck(c) <==> PastNines(c)
  {
    if PastNines(c) {
      forall slot: int
        ensures MaxCursor(Some(c), Str(slot)) == c
      {
        SlotNotAfter(c, slot);
      }
    } else {
      var slot := NinesSlot(c);
      assert MaxCursor(Some(c), Str(slot)) != c;
    }
  }

  // The slot that replaces a text which is not past the nines.
  lemma NinesSlot(c: string) returns (slot: nat)
    requires Int(c) == None && !PastNines(c)
    ensures MaxCursor(Some(c), Str(slot)) == Str(slot) != c
  {
    var k := Leading(c);
    slot := NinesValue(k + 1);
    NinesDigits(k + 1);
    if k == |c| && k > 0 {
      AllNines(c);
    }
    NinesBeat(c, k + 1, k);
    TextIrreflexive(c);
  }

  class CheckpointStore {
    var cursors: map<string, string>

    constructor ()
      ensures cursors == map[]
    {
      cursors := map[];
    }

    method Save(key: string, cursor: string)
      modifies this
      ensures cursors == old(cursors)[key := cursor]
    {
      cursors := cursors[key := cursor];
    }

    method Load(key: string) returns (cursor: Option<string>)
      ensures cursor == if key in cursors then Some(cursors[key]) else None
    {
      if key in cursors {
        return Some(cursors[key]);
      }
      cursor := None;
    }
  }
}
