/** The text that identifies a logical job, and why two different jobs never share it. */
module DedupeKey {
  import opened Domain

  /** `date.isoformat`: no colon, and one text per date. */
  type IsoFormat = Date -> string

  ghost predicate IsIso(iso: IsoFormat) {
    && (forall d: Date :: ':' !in iso(d))
    && (forall d: Date, e: Date :: iso(d) == iso(e) ==> d == e)
  }

  /** Decimal digits, the plainest text of that kind. */
  function Digits(n: nat): string {
    (if n < 10 then "" else Digits(n / 10)) + [('0' as int + n % 10) as char]
  }

  function Decimal(d: Date): string {
    if d < 0 then "-" + Digits(-d) else Digits(d)
  }

  lemma {:induction false} DigitsAreDigits(n: nat)
    ensures Digits(n) != "" && forall c | c in Digits(n) :: '0' <= c <= '9'
    decreases n
  {
    if n >= 10 {
      DigitsAreDigits(n / 10);
    }
  }

  lemma {:induction false} DigitsAreInjective(m: nat, n: nat)
    requires Digits(m) == Digits(n)
    ensures m == n
    decreases m
  {
    var x, y := Digits(m), Digits(n);
    assert x[|x| - 1] == ('0' as int + m % 10) as char && y[|y| - 1] == ('0' as int + n % 10) as char;
    assert x[..|x| - 1] == (if m < 10 then "" else Digits(m / 10)) && y[..|y| - 1] == (if n < 10 then "" else Digits(n / 10));
    DigitsAreDigits(m / 10);
    DigitsAreDigits(n / 10);
    if m >= 10 {
      DigitsAreInjective(m / 10, n / 10);
    }
  }

  /** Such texts exist. */
  lemma DecimalIsIso()
    ensures IsIso(Decimal)
  {
    forall d: Date
      ensures ':' !in Decimal(d)
    {
      DigitsAreDigits(if d < 0 then -d else d);
    }
    forall d: Date, e: Date | Decimal(d) == Decimal(e)
      ensures d == e
    {
      DecimalIsInjective(d, e);
    }
  }

  lemma DecimalIsInjective(d: Date, e: Date)
    requires Decimal(d) == Decimal(e)
    ensures d == e
  {
    var m, n := if d < 0 then -d else d, if e < 0 then -e else e;
    DigitsAreDigits(m);
    DigitsAreDigits(n);
    assert Digits(m)[0] in Digits(m) && Digits(n)[0] in Digits(n);
    if d < 0 {
      PrefixCancels("-", Digits(m), Digits(n));
    }
    DigitsAreInjective(m, n);
  }

  function TypeText(kind: ObservationType): string {
    match kind
    case EodClose => "EOD_CLOSE"
    case Nav => "NAV"
  }

  /** Everything between the account and the two dates. */
  function Subject(externalId: string, kind: ObservationType, waiting: bool): string {
    if waiting then externalId + ":" + TypeText(kind) + ":" + "waiting" else externalId + ":" + TypeText(kind)
  }

  function KeyText(iso: IsoFormat, source: string, cursor: FetchCursor, waiting: bool): string {
    "fetch_range:" + (source + ":" + (cursor.scope + ":" + Ranged(iso, Subject(cursor.externalId, cursor.kind, waiting), cursor.start, cursor.end)))
  }

  function Ranged(iso: IsoFormat, subject: string, start: Date, end: Date): string {
    subject + ":" + iso(start) + ":" + iso(end)
  }

  lemma PrefixCancels(p: string, a: string, b: string)
    requires p + a == p + b
    ensures a == b
  {
    assert a == (p + a)[|p|..] && b == (p + b)[|p|..];
  }

  lemma SuffixCancels(a: string, x: string, b: string, y: string)
    requires a + x == b + y && |x| == |y|
    ensures a == b && x == y
  {
    assert a == (a + x)[..|a|] && b == (b + y)[..|b|];
    assert x == (a + x)[|a|..] && y == (b + y)[|b|..];
  }

  /** Cutting at the first colon. */
  lemma FirstColon(p: string, a: string, q: string, b: string)
    requires ':' !in p && ':' !in q && p + ":" + a == q + ":" + b
    ensures p == q && a == b
  {
    var s, t := p + ":" + a, q + ":" + b;
    assert s[|p|] == ':' && t[|q|] == ':';
    assert p == s[..|p|] && q == t[..|q|];
    PrefixCancels(p + ":", a, b);
  }

  /** Cutting at the last colon. */
  lemma LastColon(a: string, p: string, b: string, q: string)
    requires ':' !in p && ':' !in q && a + ":" + p == b + ":" + q
    ensures a == b && p == q
  {
    var s, t := a + ":" + p, b + ":" + q;
    assert s[|a|] == ':' && t[|b|] == ':';
    SuffixCancels(a + ":", p, b + ":", q);
    SuffixCancels(a, ":", b, ":");
  }

  lemma RangedIsInjective(iso: IsoFormat, s: string, start: Date, end: Date, s': string, start': Date, end': Date)
    requires IsIso(iso) && Ranged(iso, s, start, end) == Ranged(iso, s', start', end')
    ensures s == s' && start == start' && end == end'
  {
    LastColon(s + ":" + iso(start), iso(end), s' + ":" + iso(start'), iso(end'));
    LastColon(s, iso(start), s', iso(start'));
  }

  lemma SubjectIsInjective(e: string, k: ObservationType, w: bool, e': string, k': ObservationType, w': bool)
    requires Subject(e, k, w) == Subject(e', k', w')
    ensures e == e' && k == k' && w == w'
  {
    var last := if w then "waiting" else TypeText(k);
    var last' := if w' then "waiting" else TypeText(k');
    var first := if w then e + ":" + TypeText(k) else e;
    var first' := if w' then e' + ":" + TypeText(k') else e';
    assert Subject(e, k, w) == first + ":" + last && Subject(e', k', w') == first' + ":" + last';
    LastColon(first, last, first', last');
    assert |"waiting"| == 7 && |TypeText(EodClose)| == 9 && |TypeText(Nav)| == 3;
    if w {
      LastColon(e, TypeText(k), e', TypeText(k'));
    }
  }

  /**
   Two jobs share a key only if they agree on everything the key is made of. Source and scope must not contain a
   colon; the external id may.
   */
  lemma KeysAreInjective(iso: IsoFormat, source: string, c: FetchCursor, w: bool, source': string, c': FetchCursor, w': bool)
    requires IsIso(iso)
    requires ':' !in source && ':' !in source' && ':' !in c.scope && ':' !in c'.scope
    requires KeyText(iso, source, c, w) == KeyText(iso, source', c', w')
    ensures source == source' && c == c' && w == w'
  {
    var tail := Ranged(iso, Subject(c.externalId, c.kind, w), c.start, c.end);
    var tail' := Ranged(iso, Subject(c'.externalId, c'.kind, w'), c'.start, c'.end);
    PrefixCancels("fetch_range:", source + ":" + (c.scope + ":" + tail), source' + ":" + (c'.scope + ":" + tail'));
    FirstColon(source, c.scope + ":" + tail, source', c'.scope + ":" + tail');
    FirstColon(c.scope, tail, c'.scope, tail');
    RangedIsInjective(iso, Subject(c.externalId, c.kind, w), c.start, c.end, Subject(c'.externalId, c'.kind, w'), c'.start, c'.end);
    SubjectIsInjective(c.externalId, c.kind, w, c'.externalId, c'.kind, w');
  }

  /** With a colon in the source the accounts of two sources can collide. */
  lemma ColonInSourceCollides(iso: IsoFormat, c: FetchCursor, w: bool)
    ensures KeyText(iso, "a:b", c.(scope := "c"), w) == KeyText(iso, "a", c.(scope := "b:c"), w)
  {
    var tail := Ranged(iso, Subject(c.externalId, c.kind, w), c.start, c.end);
    assert "a:b" + ":" + ("c" + ":" + tail) == "a" + ":" + ("b:c" + ":" + tail);
  }
}
