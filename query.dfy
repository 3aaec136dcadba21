/** The date-range selection and request-path construction of `requestMetrics`
    (index.js lines 134-162), with the `moment` library and the clock as parameters. */
module Query {
  import opened Wrappers

  /** The command-line options the action reads from `program`. Each string option is
      `undefined` unless given; `thisUnit` is the `--this` option. */
  datatype Options = Options(
    thisUnit: Option<string>,
    startDate: Option<string>,
    endDate: Option<string>,
    interval: Option<string>,
    geo: Option<string>,
    plans: Option<string>,
    chart: bool)

  /** JavaScript truthiness of an optional string: defined and not empty. */
  predicate Truthy(o: Option<string>)
  {
    o.Some? && o.value != ""
  }

  /** What the source uses of a `moment` value: `isValid()` and `toISOString()`. */
  datatype Moment = Moment(valid: bool, iso: string)

  /** The `moment` library and the clock: `parse(s)` is `moment(s)`, `now` is `moment()`,
      `ago(u)` is `moment().subtract(1, u)`. */
  datatype DateLib = DateLib(parse: string -> Moment, now: Moment, ago: string -> Moment)

  /** The two day strings that go into the query and into the title. */
  datatype DateRange = DateRange(start: string, end: string)

  datatype DateError = MissingParameters | BadFormat

  /** `s.split(c)[0]`: everything before the first `c`, or all of `s` when there is none. */
  function Before(s: string, c: char): (r: string)
    ensures r <= s
    ensures c !in r
    ensures |r| < |s| ==> s[|r|] == c
  {
    if s == [] || s[0] == c then [] else [s[0]] + Before(s[1..], c)
  }

  /** `m.toISOString().split('T')[0]`: the calendar-day part of an ISO timestamp. */
  function IsoDay(m: Moment): string
  {
    Before(m.iso, 'T')
  }

  /** Both explicit dates are longer than nine characters and `moment` accepts both. */
  predicate ExplicitDatesOk(opts: Options, lib: DateLib)
  {
    && opts.startDate.Some? && opts.endDate.Some?
    && |opts.startDate.value| > 9 && |opts.endDate.value| > 9
    && lib.parse(opts.startDate.value).valid && lib.parse(opts.endDate.value).valid
  }

  /** The branch structure of index.js lines 136-160: `--this` first, then the explicit
      pair, otherwise the missing-parameters error. */
  function SelectRange(opts: Options, lib: DateLib): (r: Result<DateRange, DateError>)
    ensures Truthy(opts.thisUnit) ==>
              r == Ok(DateRange(IsoDay(lib.ago(opts.thisUnit.value + "s")), IsoDay(lib.now)))
    ensures r == Err(MissingParameters) <==>
              !Truthy(opts.thisUnit) && !(Truthy(opts.startDate) && Truthy(opts.endDate))
    ensures r.Ok? <==> Truthy(opts.thisUnit) || ExplicitDatesOk(opts, lib)
    ensures r.Ok? && !Truthy(opts.thisUnit) ==>
              r.value == DateRange(IsoDay(lib.parse(opts.startDate.value)),
                                   IsoDay(lib.parse(opts.endDate.value)))
  {
    if (Truthy(opts.startDate) && Truthy(opts.endDate)) || Truthy(opts.thisUnit) then
      if Truthy(opts.thisUnit) then
        Ok(DateRange(IsoDay(lib.ago(opts.thisUnit.value + "s")), IsoDay(lib.now)))
      else if |opts.startDate.value| > 9 && |opts.endDate.value| > 9 then
        var start := lib.parse(opts.startDate.value);
        var end := lib.parse(opts.endDate.value);
        if start.valid && end.valid then Ok(DateRange(IsoDay(start), IsoDay(end)))
        else Err(BadFormat)
      else Err(BadFormat)
    else Err(MissingParameters)
  }

  /** One `key=value` pair of a query string. */
  datatype Param = Param(key: string, value: string)

  /** The interval sent: the option when given, `month` otherwise. */
  function Interval(opts: Options): string
  {
    if Truthy(opts.interval) then opts.interval.value else "month"
  }

  /** The parameters of a metrics request, in the order the source appends them. */
  function QueryParams(range: DateRange, opts: Options): (ps: seq<Param>)
  {
    [Param("start-date", range.start), Param("end-date", range.end)]
    + Filter("geo", opts.geo) + Filter("plans", opts.plans)
    + [Param("interval", Interval(opts))]
  }

  function Render(p: Param): string
  {
    p.key + "=" + p.value
  }

  /** Parameters joined by `&`. */
  function Encode(ps: seq<Param>): string
  {
    if ps == [] then "" else Render(ps[0]) + Joined(ps[1..])
  }

  /** Each parameter preceded by `&`: the text that follows the first parameter. */
  function Joined(ps: seq<Param>): string
  {
    if ps == [] then "" else "&" + Render(ps[0]) + Joined(ps[1..])
  }

  /** A query string split at every `&`, each piece split at its first `=`. */
  function Decode(q: string): seq<Param>
    decreases |q|
  {
    var piece := Before(q, '&');
    if |piece| == |q| then [SplitPair(piece)]
    else [SplitPair(piece)] + Decode(q[|piece| + 1..])
  }

  function SplitPair(piece: string): Param
  {
    var key := Before(piece, '=');
    if |key| == |piece| then Param(key, "") else Param(key, piece[|key| + 1..])
  }

  /** The date part of the path (index.js lines 140 and 147). */
  function DatePath(range: DateRange): string
  {
    "?start-date=" + range.start + "&end-date=" + range.end
  }

  /** The path of index.js line 162, built by plain concatenation as the source does; its
      contract says it is the metric, a `?`, and the parameter list joined by `&`. */
  function RequestPath(metric: string, range: DateRange, opts: Options): (path: string)
    ensures path == metric + "?" + Encode(QueryParams(range, opts))
  {
    var geo := if Truthy(opts.geo) then "&geo=" + opts.geo.value else "";
    var plans := if Truthy(opts.plans) then "&plans=" + opts.plans.value else "";
    var interval := if Truthy(opts.interval) then "&interval=" + opts.interval.value else "&interval=month";
    PathPieces(metric, range, opts, geo, plans, interval);
    metric + DatePath(range) + geo + plans + interval
  }

  lemma PathPieces(metric: string, range: DateRange, opts: Options, geo: string, plans: string, interval: string)
    requires geo == if Truthy(opts.geo) then "&geo=" + opts.geo.value else ""
    requires plans == if Truthy(opts.plans) then "&plans=" + opts.plans.value else ""
    requires interval == "&interval=" + Interval(opts)
    ensures metric + DatePath(range) + geo + plans + interval
            == metric + "?" + Encode(QueryParams(range, opts))
  {
    var first := Param("start-date", range.start);
    var rest := [Param("end-date", range.end)];
    var i := [Param("interval", Interval(opts))];
    var g, p := Filter("geo", opts.geo), Filter("plans", opts.plans);
    DatePathShape(range);
    SingleJoined(i[0]);
    assert "&geo=" == "&" + "geo" + "=";
    assert "&plans=" == "&" + "plans" + "=";
    assert "&interval=" == "&" + "interval" + "=";
    assert geo == Joined(g) && plans == Joined(p) && interval == Joined(i);
    assert QueryParams(range, opts) == [first] + (rest + g + p + i);
    Assemble(metric, first, rest, g, p, i);
  }

  lemma DatePathShape(range: DateRange)
    ensures DatePath(range)
            == "?" + Render(Param("start-date", range.start)) + Joined([Param("end-date", range.end)])
  {
    SingleJoined(Param("end-date", range.end));
    var s, e := range.start, range.end;
    calc {
      DatePath(range);
      "?start-date=" + s + "&end-date=" + e;
      { assert "?start-date=" == "?" + "start-date" + "="; }
      ("?" + "start-date" + "=") + s + "&end-date=" + e;
      { assert "&end-date=" == "&" + "end-date" + "="; }
      "?" + ("start-date" + "=" + s) + ("&" + "end-date" + "=" + e);
    }
  }

  lemma SingleJoined(p: Param)
    ensures Joined([p]) == "&" + p.key + "=" + p.value
  {
    assert Joined([p]) == "&" + Render(p) + "";
  }

  /** The one-element list for an option that is set, the empty list otherwise. */
  function Filter(key: string, o: Option<string>): (ps: seq<Param>)
    ensures Joined(ps) == if Truthy(o) then "&" + key + "=" + o.value else ""
  {
    if Truthy(o) then [Param(key, o.value)] else []
  }

  lemma Assemble(metric: string, first: Param, rest: seq<Param>, g: seq<Param>, p: seq<Param>, i: seq<Param>)
    ensures metric + ("?" + Render(first) + Joined(rest)) + Joined(g) + Joined(p) + Joined(i)
            == metric + "?" + Encode([first] + (rest + g + p + i))
  {
    var all := rest + g + p + i;
    var r, a, gs, ps, iv := Render(first), Joined(rest), Joined(g), Joined(p), Joined(i);
    assert ([first] + all)[0] == first && ([first] + all)[1..] == all;
    calc {
      Encode([first] + all);
      r + Joined(all);
      { JoinedAppend(rest + g + p, i); }
      r + (Joined(rest + g + p) + iv);
      { JoinedAppend(rest + g, p); }
      r + ((Joined(rest + g) + ps) + iv);
      { JoinedAppend(rest, g); }
      r + (((a + gs) + ps) + iv);
    }
    Associate(metric, "?", r, a, gs, ps, iv);
  }

  lemma Associate(m: string, q: string, r: string, a: string, g: string, p: string, i: string)
    ensures m + (q + r + a) + g + p + i == m + q + (r + (((a + g) + p) + i))
  {
  }

  /** Joining distributes over concatenation of parameter lists. */
  lemma {:induction false} JoinedAppend(xs: seq<Param>, ys: seq<Param>)
    ensures Joined(xs + ys) == Joined(xs) + Joined(ys)
  {
    if xs == [] {
      assert xs + ys == ys;
    } else {
      assert (xs + ys)[1..] == xs[1..] + ys;
      JoinedAppend(xs[1..], ys);
    }
  }

  /** A parameter that survives the round trip: no separator in its key, no `&` in its value. */
  predicate Plain(p: Param)
  {
    '&' !in p.key && '=' !in p.key && '&' !in p.value
  }

  /** No parameter of `ps` holds a separator where splitting would see it. */
  predicate AllPlain(ps: seq<Param>)
  {
    forall p :: p in ps ==> Plain(p)
  }

  /** Splitting `a`, the separator and `b` at the first separator gives back `a`. */
  lemma {:induction false} BeforeSeparator(a: string, c: char, b: string)
    requires c !in a
    ensures Before(a + [c] + b, c) == a
  {
    if a == [] {
      assert a + [c] + b == [c] + b;
    } else {
      assert (a + [c] + b)[1..] == a[1..] + [c] + b;
      BeforeSeparator(a[1..], c, b);
    }
  }

  /** A string without the separator is its own first piece. */
  lemma {:induction false} BeforeAbsent(s: string, c: char)
    requires c !in s
    ensures Before(s, c) == s
  {
    if s != [] {
      BeforeAbsent(s[1..], c);
    }
  }

  /** A plain parameter renders without `&` and splits back into itself. */
  lemma SplitRender(p: Param)
    requires Plain(p)
    ensures SplitPair(Render(p)) == p && '&' !in Render(p)
  {
    assert Render(p) == p.key + ['='] + p.value;
    BeforeSeparator(p.key, '=', p.value);
  }

  lemma EncodeCons(ps: seq<Param>)
    requires |ps| > 1
    ensures Encode(ps) == Render(ps[0]) + ['&'] + Encode(ps[1..])
  {
    assert Joined(ps[1..]) == "&" + Encode(ps[1..]);
  }

  /** Decoding an encoded list of plain parameters gives the list back. */
  lemma {:induction false} DecodeEncode(ps: seq<Param>)
    requires |ps| > 0
    requires AllPlain(ps)
    ensures Decode(Encode(ps)) == ps
  {
    assert Plain(ps[0]);
    SplitRender(ps[0]);
    if |ps| == 1 {
      assert Encode(ps) == Render(ps[0]);
      BeforeAbsent(Render(ps[0]), '&');
    } else {
      var q, r := Encode(ps), Render(ps[0]);
      EncodeCons(ps);
      BeforeSeparator(r, '&', Encode(ps[1..]));
      assert q[|r| + 1..] == Encode(ps[1..]);
      assert AllPlain(ps[1..]) by {
        assert forall p :: p in ps[1..] ==> p in ps;
      }
      DecodeEncode(ps[1..]);
      assert [ps[0]] + ps[1..] == ps;
    }
  }

  /** No `&` in the dates or in the option values that are sent. */
  predicate PlainValues(range: DateRange, opts: Options)
  {
    && '&' !in range.start && '&' !in range.end
    && (opts.geo.Some? ==> '&' !in opts.geo.value)
    && (opts.plans.Some? ==> '&' !in opts.plans.value)
    && (opts.interval.Some? ==> '&' !in opts.interval.value)
  }

  lemma PlainAppend(xs: seq<Param>, ys: seq<Param>)
    requires AllPlain(xs) && AllPlain(ys)
    ensures AllPlain(xs + ys)
  {
    assert forall p :: p in xs + ys ==> p in xs || p in ys;
  }

  lemma PlainFilter(key: string, o: Option<string>)
    requires '&' !in key && '=' !in key && (o.Some? ==> '&' !in o.value)
    ensures AllPlain(Filter(key, o))
  {
  }

  /** Every parameter sent is free of separators once the values are. */
  lemma PlainParams(range: DateRange, opts: Options)
    requires PlainValues(range, opts)
    ensures AllPlain(QueryParams(range, opts))
  {
    var dates := [Param("start-date", range.start), Param("end-date", range.end)];
    var geo, plans := Filter("geo", opts.geo), Filter("plans", opts.plans);
    var last := [Param("interval", Interval(opts))];
    assert AllPlain(dates) by {
      assert Plain(dates[0]) && Plain(dates[1]);
    }
    assert AllPlain(last) by {
      assert Plain(last[0]);
    }
    PlainFilter("geo", opts.geo);
    PlainFilter("plans", opts.plans);
    PlainAppend(dates, geo);
    PlainAppend(dates + geo, plans);
    PlainAppend(dates + geo + plans, last);
  }

  /** The request path splits back into the metric and exactly the parameter list, so the
      two dates, the filters and the interval all reach the service verbatim and in order. */
  lemma PathRoundTrip(metric: string, range: DateRange, opts: Options)
    requires '?' !in metric
    requires PlainValues(range, opts)
    ensures var path := RequestPath(metric, range, opts);
            && Before(path, '?') == metric
            && Decode(path[|metric| + 1..]) == QueryParams(range, opts)
  {
    var ps := QueryParams(range, opts);
    var path := RequestPath(metric, range, opts);
    BeforeSeparator(metric, '?', Encode(ps));
    assert path == metric + ['?'] + Encode(ps);
    assert path[|metric| + 1..] == Encode(ps);
    PlainParams(range, opts);
    DecodeEncode(ps);
  }

  function Upper(c: char): char
  {
    if 'a' <= c <= 'z' then (c as int - 32) as char else c
  }

  /** `toUpperCase` on the ASCII letters the nine metric names are made of. */
  function UpperCase(s: string): string
  {
    seq(|s|, i requires 0 <= i < |s| => Upper(s[i]))
  }

  /** The heading printed above the entries or the chart (index.js line 171). */
  function Title(metric: string, range: DateRange): string
  {
    "ChartMogul " + UpperCase(metric) + " from " + range.start + " to " + range.end
  }
}
