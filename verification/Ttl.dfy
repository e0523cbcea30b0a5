/** The time-to-live arithmetic of the deferred block in controllers/project_controller.go: Go's
    64-bit durations in nanoseconds, with the saturation and wrap-around of the time package. */
module Ttl {
  import opened Kubernetes

  const Second := 1_000_000_000
  const MaxDuration := 0x7fff_ffff_ffff_ffff
  const MinDuration := -0x8000_0000_0000_0000

  type Duration = d: int | MinDuration <= d <= MaxDuration

  /** Two's complement wrap-around to 64 bits. */
  function Wrap64(x: int): Duration {
    (x - MinDuration) % 0x1_0000_0000_0000_0000 + MinDuration
  }

  /** time.Time.Sub: the difference of two instants, saturating. */
  function Saturate(x: int): Duration {
    if x > MaxDuration then MaxDuration else if x < MinDuration then MinDuration else x
  }

  /** Go's remainder truncates toward zero. */
  function Remainder(d: int, m: int): int
    requires m > 0
  {
    if d >= 0 then d % m else -(-d % m)
  }

  /** time.Duration.Round(time.Second). */
  function RoundSecond(d: Duration): Duration {
    var r := Remainder(d, Second);
    if d < 0 then
      if -r + -r < Second then d - r
      else var d1 := Wrap64(d - Second - r); if d1 < d then d1 else MinDuration
    else
      if r + r < Second then d - r
      else var d1 := Wrap64(d + Second - r); if d1 > d then d1 else MaxDuration
  }

  datatype Gauges = Gauges(initial: Duration, remaining: Duration, expired: int, creationTime: int)

  /** The gauges published for a project; an unparseable TTL counts as zero here (and is reported as
      an error besides). Durations stand for their Seconds() value; saturating a parsed TTL only
      expresses that it is a 64-bit duration. */
  function Measure(lib: Library, p: Project, now: int): Gauges {
    if AnnotationKeyTTL in p.annotations then
      var ttl := match lib.parseDuration(p.annotations[AnnotationKeyTTL])
                 case None => 0
                 case Some(d) => d;
      var remaining := RoundSecond(Saturate(p.creation + ttl - now));
      Gauges(RoundSecond(Saturate(ttl)), remaining, if remaining >= 0 then 0 else 1, p.creation / Second)
    else
      Gauges(0, 0, 0, p.creation / Second)
  }

  ghost predicate HasTtl(lib: Library, p: Project, ttl: int) {
    AnnotationKeyTTL in p.annotations && lib.parseDuration(p.annotations[AnnotationKeyTTL]) == Some(ttl)
  }

  /** Away from saturation, r is d rounded to whole seconds with halves away from zero. */
  ghost predicate RoundsTo(d: int, r: int) {
    && r % Second == 0
    && -Second <= 2 * (r - d) <= Second
    && (2 * (r - d) == Second ==> d >= 0)
    && (2 * (r - d) == -Second ==> d < 0)
  }

  lemma RoundSecondExact(d: Duration)
    requires MinDuration + Second <= d <= MaxDuration - Second
    ensures RoundsTo(d, RoundSecond(d))
  {
    if d >= 0 {
      RoundsUp(d);
    } else {
      RoundsDown(d);
    }
  }

  /** Halves of positive durations go up. */
  lemma RoundsUp(d: Duration)
    requires 0 <= d <= MaxDuration - Second
    ensures RoundsTo(d, RoundSecond(d))
  {
    hide Wrap64;
    Wrap64Exact(d + Second - d % Second);
    WholeAfter(d);
  }

  /** Halves of negative durations go down. */
  lemma RoundsDown(d: Duration)
    requires MinDuration + Second <= d < 0
    ensures RoundsTo(d, RoundSecond(d))
  {
    hide Wrap64;
    Wrap64Exact(d - Second + -d % Second);
    WholeAfter(-d);
  }

  lemma Wrap64Exact(x: int)
    requires MinDuration <= x <= MaxDuration
    ensures Wrap64(x) == x
  {
  }

  lemma WholeAfter(d: nat)
    ensures (d - d % Second) % Second == 0 && (d % Second - d) % Second == 0
    ensures (d + Second - d % Second) % Second == 0 && (d % Second - d - Second) % Second == 0
  {
    var q := d / Second;
    assert d == q * Second + d % Second;
  }

  /** The sign test on the rounded value looks through both rounding and saturation. */
  lemma RoundSecondSign(x: int)
    ensures RoundSecond(Saturate(x)) < 0 <==> 2 * x <= -Second
  {
    var d := Saturate(x);
    var q, r := (if d >= 0 then d else -d) / Second, (if d >= 0 then d else -d) % Second;
    assert d == (if d >= 0 then q * Second + r else -(q * Second) - r);
  }

  /** r is x rounded to seconds, unless x comes within a second of the 64-bit range. */
  ghost predicate Rounded(x: int, r: int) {
    MinDuration + Second <= x <= MaxDuration - Second ==> RoundsTo(x, r)
  }

  lemma SaturatedRounds(x: int)
    ensures Rounded(x, RoundSecond(Saturate(x)))
  {
    if MinDuration + Second <= x <= MaxDuration - Second {
      RoundSecondExact(x);
    }
  }

  /** The whole seconds since 1970 at creation. */
  predicate WholeSeconds(seconds: int, instant: int) {
    seconds * 1_000_000_000 <= instant < (seconds + 1) * 1_000_000_000
  }

  /** The gauges for a TTL of ttl: the TTL and the rest of it rounded to seconds, and expired iff the TTL
      is overrun by at least half a second. */
  ghost predicate GaugesFor(g: Gauges, p: Project, ttl: int, now: int) {
    && Rounded(ttl, g.initial) && Rounded(p.creation + ttl - now, g.remaining)
    && (g.expired == 1 <==> 2 * (p.creation + ttl - now) <= -1_000_000_000)
    && (g.expired == 0 <==> 2 * (p.creation + ttl - now) > -1_000_000_000)
    && WholeSeconds(g.creationTime, p.creation)
  }

  /** What the gauges of a project say: without a TTL nothing; a TTL that does not parse counts as zero. */
  ghost predicate Gauged(g: Gauges, lib: Library, p: Project, now: int) {
    if "cs.sap.com/ttl" !in p.annotations then
      g.initial == 0 && g.remaining == 0 && g.expired == 0 && WholeSeconds(g.creationTime, p.creation)
    else
      match lib.parseDuration(p.annotations["cs.sap.com/ttl"])
      case None => g.initial == 0 && GaugesFor(g, p, 0, now)
      case Some(ttl) => GaugesFor(g, p, ttl, now)
  }

  lemma MeasureGauges(lib: Library, p: Project, now: int)
    ensures Gauged(Measure(lib, p, now), lib, p, now)
  {
    hide RoundSecond, Saturate;
    RoundsZero();
    if AnnotationKeyTTL in p.annotations {
      var ttl := match lib.parseDuration(p.annotations[AnnotationKeyTTL])
                 case None => 0
                 case Some(d) => d;
      SaturatedRounds(ttl);
      SaturatedRounds(p.creation + ttl - now);
      RoundSecondSign(p.creation + ttl - now);
    }
  }

  lemma RoundsZero()
    ensures RoundSecond(Saturate(0)) == 0
  {
  }

  /** The remaining gauge is creation + ttl - now rounded to seconds, unless that difference comes
      within a second of the 64-bit range; the expired gauge is 1 iff the TTL is overrun by at least
      half a second, without exception. */
  lemma TtlGauges(lib: Library, p: Project, ttl: int, now: int)
    requires HasTtl(lib, p, ttl)
    ensures var left := p.creation + ttl - now;
            && (MinDuration + Second <= left <= MaxDuration - Second
                ==> RoundsTo(left, Measure(lib, p, now).remaining))
            && (Measure(lib, p, now).expired == 1 <==> 2 * left <= -Second)
            && (Measure(lib, p, now).expired == 0 <==> 2 * left > -Second)
  {
    MeasureGauges(lib, p, now);
  }

  /** Once expired, a project stays expired as time advances, whatever its annotation says. */
  lemma ExpiredForGood(lib: Library, p: Project, now: int, later: int)
    requires now <= later && Measure(lib, p, now).expired == 1
    ensures Measure(lib, p, later).expired == 1
  {
    var ttl := match lib.parseDuration(p.annotations[AnnotationKeyTTL])
               case None => 0
               case Some(d) => d;
    RoundSecondSign(p.creation + ttl - now);
    RoundSecondSign(p.creation + ttl - later);
  }
}
