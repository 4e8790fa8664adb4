/** async/beat.go: five-field crontab rules. The field syntax is that of the crontab utility in IEEE
    Std 1003.1, with `/step` added. Time zones are a function from UTC minutes to wall clocks. */
module Cron {
  import opened Protocol

  /** Go's int: every operation below is proved to stay in range. */
  newtype Machine = x: int | -0x8000_0000_0000_0000 <= x < 0x8000_0000_0000_0000

  datatype Base = Star | Single(a: Machine) | Span(a: Machine, b: Machine)

  /** One comma-separated piece of a field, its numbers read. */
  datatype Piece = Piece(base: Base, step: Option<Machine>)

  function Low(field: nat): Machine { if field == 2 || field == 3 then 1 else 0 }

  function High(field: nat): Machine {
    match field
    case 0 => 59
    case 1 => 23
    case 2 => 31
    case 3 => 12
    case _ => 7
  }

  function StepOf(p: Piece): Machine { if p.step.Some? then p.step.value else 1 }

  function StartOf(field: nat, p: Piece): Machine {
    match p.base
    case Star => Low(field)
    case Single(a) => a
    case Span(a, _) => a
  }

  function EndOf(field: nat, p: Piece): Machine {
    match p.base
    case Star => High(field)
    case Single(a) => if p.step.Some? then High(field) else a
    case Span(_, b) => b
  }

  predicate PieceOk(field: nat, p: Piece) {
    StepOf(p) >= 1 && Low(field) <= StartOf(field, p) <= EndOf(field, p) <= High(field)
  }

  /** Sunday is 0, also when written 7. */
  function Wrap(field: nat, n: int): int { if field == 4 && n == 7 then 0 else n }

  /** The `q`-th element of the piece's arithmetic progression. */
  function Element(field: nat, p: Piece, q: int): int { StartOf(field, p) as int + q * StepOf(p) as int }

  /** `n` lies on the piece's arithmetic progression. */
  predicate OnPiece(field: nat, p: Piece, n: int) {
    n <= EndOf(field, p) as int && exists q | 0 <= q <= 59 :: Element(field, p, q) == n
  }

  /** The union of the progressions of the pieces. */
  predicate InField(field: nat, pieces: seq<Piece>, v: int) {
    exists i, n | 0 <= i < |pieces| && 0 <= n <= 59 :: OnPiece(field, pieces[i], n) && v == Wrap(field, n)
  }

  /** One piece of parseCron's inner loop: the remaining range is compared before the step is added. */
  method AddPiece(field: nat, p: Piece, values: set<int>) returns (r: set<int>)
    requires PieceOk(field, p)
    ensures forall v ::
              v in r <==> v in values || exists n | 0 <= n <= 59 :: OnPiece(field, p, n) && v == Wrap(field, n)
  {
    var start, end, step := StartOf(field, p), EndOf(field, p), StepOf(p);
    var n := start;
    ghost var q := 0;
    r := values;
    while true
      invariant start <= n <= end && q >= 0 && n as int == Element(field, p, q)
      invariant forall v ::
                  v in r <==> v in values || exists k | 0 <= k < n as int :: OnPiece(field, p, k) && v == Wrap(field, k)
      decreases end - n
    {
      IndexBound(field, p, q);
      assert OnPiece(field, p, n as int);
      Skips(field, p, q);
      r := r + {Wrap(field, n as int)};
      if step > end - n {
        assert forall k | n as int < k <= 59 :: !OnPiece(field, p, k);
        break;
      }
      n, q := n + step, q + 1;
    }
  }

  lemma IndexBound(field: nat, p: Piece, q: int)
    requires PieceOk(field, p) && q >= 0 && Element(field, p, q) <= EndOf(field, p) as int
    ensures q <= 59
  {
    assert q * StepOf(p) as int >= q;
  }

  /** Between one element of the progression and the next there is none. */
  lemma Skips(field: nat, p: Piece, q: int)
    requires PieceOk(field, p)
    ensures Element(field, p, q + 1) == Element(field, p, q) + StepOf(p) as int
    ensures forall k | Element(field, p, q) < k < Element(field, p, q + 1) :: !OnPiece(field, p, k)
  {
    var step := StepOf(p) as int;
    assert (q + 1) * step == q * step + step;
    forall t ensures !(Element(field, p, q) < Element(field, p, t) < Element(field, p, q + 1)) { Between(q, t, step); }
  }

  lemma Between(q: int, t: int, step: int)
    requires step >= 1
    ensures !(q * step < t * step < q * step + step)
  {
    if t <= q { assert t * step <= q * step; } else { assert t * step >= (q + 1) * step; }
  }

  /** parseCron on one field: it holds exactly the union of its progressions, and it is refused
      exactly when some piece is out of bounds. */
  method ParseField(field: nat, pieces: seq<Piece>) returns (r: Result<set<int>>)
    ensures r.Ok? <==> forall i | 0 <= i < |pieces| :: PieceOk(field, pieces[i])
    ensures r.Ok? ==> forall v :: v in r.value <==> InField(field, pieces, v)
  {
    var values: set<int> := {};
    for i := 0 to |pieces|
      invariant forall j | 0 <= j < i :: PieceOk(field, pieces[j])
      invariant forall v :: v in values <==> InField(field, pieces[..i], v)
    {
      if !PieceOk(field, pieces[i]) { return Err(Invalid); }
      ghost var before := values;
      values := AddPiece(field, pieces[i], values);
      forall v ensures v in values <==> InField(field, pieces[..i + 1], v) { OneMorePiece(field, pieces, i, v); }
    }
    assert pieces[..|pieces|] == pieces;
    r := Ok(values);
  }

  lemma OneMorePiece(field: nat, pieces: seq<Piece>, i: nat, v: int)
    requires i < |pieces| && forall j | 0 <= j <= i :: PieceOk(field, pieces[j])
    ensures InField(field, pieces[..i + 1], v) <==>
              InField(field, pieces[..i], v) ||
              exists n | 0 <= n <= 59 :: OnPiece(field, pieces[i], n) && v == Wrap(field, n)
  {
    var a, b := pieces[..i], pieces[..i + 1];
    if InField(field, b, v) {
      var j, n :| 0 <= j < |b| && 0 <= n <= 59 && OnPiece(field, b[j], n) && v == Wrap(field, n);
      if j < i { assert a[j] == b[j]; }
    }
    if InField(field, a, v) {
      var j, n :| 0 <= j < |a| && 0 <= n <= 59 && OnPiece(field, a[j], n) && v == Wrap(field, n);
      assert b[j] == a[j];
    }
    if n :| 0 <= n <= 59 && OnPiece(field, pieces[i], n) && v == Wrap(field, n) { assert b[i] == pieces[i]; }
  }

  // ---- the search ----

  datatype Wall = Wall(year: int, yearDay: int, month: int, day: int, weekday: int, hour: int, minute: int)

  type Zone = int -> Wall

  datatype Policy = Both | First | Second

  datatype Rule = Rule(minutes: set<int>, hours: set<int>, days: set<int>, months: set<int>, weekdays: set<int>,
    anyDay: bool, anyWeekday: bool, policy: Policy)

  /** When both day fields are restricted, either one suffices. */
  predicate Matches(rule: Rule, w: Wall) {
    w.minute in rule.minutes && w.hour in rule.hours && w.month in rule.months &&
    if !rule.anyDay && !rule.anyWeekday then w.day in rule.days || w.weekday in rule.weekdays
    else w.day in rule.days && w.weekday in rule.weekdays
  }

  predicate SameMinute(a: Wall,
      b: Wall) { a.year == b.year && a.yearDay == b.yearDay && a.hour == b.hour && a.minute == b.minute }

  /** No other UTC minute within three hours on the given side shows the same wall clock. */
  predicate FoldOk(policy: Policy, zone: Zone, m: int) {
    match policy
    case Both => true
    case First => forall j | m - 180 <= j < m :: !SameMinute(zone(m), zone(j))
    case Second => forall j | m < j <= m + 180 :: !SameMinute(zone(m), zone(j))
  }

  predicate Chosen(rule: Rule, zone: Zone, m: int) { Matches(rule, zone(m)) && FoldOk(rule.policy, zone, m) }

  method Duplicates(zone: Zone, m: int) returns (before: bool, after: bool)
    ensures before <==> !FoldOk(First, zone, m)
    ensures after <==> !FoldOk(Second, zone, m)
  {
    before, after := false, false;
    for k := 1 to 181
      invariant before <==> exists j | m - k < j < m :: SameMinute(zone(m), zone(j))
      invariant after <==> exists j | m < j < m + k :: SameMinute(zone(m), zone(j))
    {
      before := before || SameMinute(zone(m), zone(m - k));
      after := after || SameMinute(zone(m), zone(m + k));
    }
  }

  /** ScheduleRule.Next for cron: the least chosen minute after an instant (in seconds) and before the
      five-year limit; `last` is the last minute of the year 9999. */
  method NextMinute(rule: Rule, zone: Zone, after: nat, limit: nat, last: nat) returns (r: Result<nat>)
    ensures r.Ok? ==> after < 60 * r.value < limit && Chosen(rule, zone, r.value)
    ensures r.Ok? ==> forall k: nat | after < 60 * k && k < r.value :: !Chosen(rule, zone, k)
    ensures r.Err? ==> forall k: nat | after < 60 * k < limit && k <= last :: !Chosen(rule, zone, k)
  {
    var next := after / 60 + 1;
    while 60 * next < limit
      invariant after < 60 * next
      invariant forall k: nat | after < 60 * k && k < next :: !Chosen(rule, zone, k)
      decreases limit - 60 * next
    {
      if next > last { return Err(Invalid); }
      if Matches(rule, zone(next)) {
        if rule.policy == Both { return Ok(next); }
        var before, later := Duplicates(zone, next);
        if !((rule.policy == First && before) || (rule.policy == Second && later)) { return Ok(next); }
      }
      next := next + 1;
    }
    r := Err(Invalid);
  }

  /** All UTC minutes that show `m`'s wall minute lie within three hours of each other. */
  ghost predicate NarrowFold(zone: Zone, m: int) {
    forall a, b :: SameMinute(zone(m), zone(a)) && SameMinute(zone(m), zone(b)) ==> b - a <= 180
  }

  /** The first copy of `m`'s wall minute within `k` minutes before `m`. */
  function FirstCopy(zone: Zone, m: int, k: nat): (r: int)
    ensures m - k <= r <= m && SameMinute(zone(m), zone(r)) &&
            forall j | m - k <= j < r :: !SameMinute(zone(m), zone(j))
  {
    if k == 0 then m else if SameMinute(zone(m), zone(m - k)) then m - k else FirstCopy(zone, m, k - 1)
  }

  function LastCopy(zone: Zone, m: int, k: nat): (r: int)
    ensures m <= r <= m + k && SameMinute(zone(m), zone(r)) &&
            forall j | r < j <= m + k :: !SameMinute(zone(m), zone(j))
  {
    if k == 0 then m else if SameMinute(zone(m), zone(m + k)) then m + k else LastCopy(zone, m, k - 1)
  }

  /** Fold policies: of the UTC minutes that show one wall minute, spread over at most three hours,
      `first` and `second` each choose exactly one, the earliest and the latest. */
  lemma FoldChoosesOne(zone: Zone, policy: Policy, m: int)
    requires policy != Both && NarrowFold(zone, m)
    ensures exists a :: SameMinute(zone(m), zone(a)) && FoldOk(policy, zone, a) &&
              forall b ::
                SameMinute(zone(m), zone(b)) ==>
                  (FoldOk(policy, zone, b) <==> b == a) && (if policy == First then a <= b else b <= a)
  {
    var a := if policy == First then FirstCopy(zone, m, 180) else LastCopy(zone, m, 180);
    forall b | SameMinute(zone(m), zone(b)) ensures if policy == First then a <= b else b <= a {
      assert SameMinute(zone(m), zone(m));
      assert m - b <= 180 && b - m <= 180;
    }
    forall j | SameMinute(zone(a), zone(j)) ensures SameMinute(zone(m), zone(j)) {}
    assert FoldOk(policy, zone, a);
    forall b | SameMinute(zone(m), zone(b)) && b != a ensures !FoldOk(policy, zone, b) {
      assert SameMinute(zone(b), zone(a));
    }
  }
}
