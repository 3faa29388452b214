/**
 * The textual routing language: a route is written as its waypoints joined by
 * `-`, each waypoint but the last followed by the lane it leaves on, as in
 * `(1,1)-L0-(1.5,1)-L1-(1.5,2)-L0-(2,2)`.
 */
module RoutingSerialize {
  import opened Wrappers
  import opened Strings
  import opened RoutingTypes
  import opened RoutingLanes

  // ---------------------------------------------------------------- Writing

  /**
   * The text of a number given by its sign, its whole part and whether a
   * half is added: Rust's `Display` of such an `f64`.
   */
  function ComponentText(negative: bool, whole: nat, half: bool): string
  {
    if negative then "-" + UnsignedText(whole, half) else UnsignedText(whole, half)
  }

  function UnsignedText(whole: nat, half: bool): string
  {
    if half then NatToString(whole) + ".5" else NatToString(whole)
  }

  /**
   * One doubled coordinate component as Rust displays the `f64` half of it:
   * an integer without a fraction, otherwise with `.5`.
   */
  function FormatComponent(v2: int): string
  {
    var whole := HalfOf(Abs(v2));
    ComponentText(v2 < 0, whole, Abs(v2) != 2 * whole)
  }

  /** The whole part of half of `n`, by repeated subtraction. */
  function HalfOf(n: nat): (h: nat)
    ensures n == 2 * h || n == 2 * h + 1
  {
    if n < 2 then 0 else 1 + HalfOf(n - 2)
  }

  /** `format_coord`: `(col,row)` in grid units. */
  function FormatCoord(c: GridCoord): string
  {
    "(" + FormatComponent(c.col2) + "," + FormatComponent(c.row2) + ")"
  }

  function LaneText(lane: Lane): string
  {
    "L" + IntToString(lane)
  }

  /** One part of a route's text: a coordinate or the lane between two coordinates. */
  datatype Part = CoordPart(coord: GridCoord) | LanePart(lane: Lane)

  function PartText(p: Part): string
  {
    match p
    case CoordPart(c) => FormatCoord(c)
    case LanePart(l) => LaneText(l)
  }

  function Texts(parts: seq<Part>): (r: seq<string>)
    ensures |r| == |parts|
  {
    seq(|parts|, i requires 0 <= i < |parts| => PartText(parts[i]))
  }

  /** The parts `route_to_string` collects for the first `n` waypoints. */
  function RoutePartsUpTo(w: seq<Waypoint>, n: nat): seq<Part>
    requires n <= |w|
  {
    if n == 0 then []
    else (RoutePartsUpTo(w, n - 1) + [CoordPart(w[n - 1].coord)]
          + (if n < |w| then [LanePart(w[n - 1].lane)] else []))
  }

  /** The text of a route. */
  function RouteText(w: seq<Waypoint>): string
  {
    Join(Texts(RoutePartsUpTo(w, |w|)), "-")
  }

  /** `route_to_string`. */
  method RouteToString(route: Route) returns (s: string)
    ensures s == RouteText(route.waypoints)
  {
    var w := route.waypoints;
    var parts: seq<string> := [];
    for i := 0 to |w|
      invariant parts == Texts(RoutePartsUpTo(w, i))
    {
      ghost var before := RoutePartsUpTo(w, i + 1);
      assert before == RoutePartsUpTo(w, i) + [CoordPart(w[i].coord)]
        + (if i + 1 < |w| then [LanePart(w[i].lane)] else []);
      parts := parts + [FormatCoord(w[i].coord)];
      if i + 1 < |w| {
        parts := parts + [LaneText(w[i].lane)];
      }
      assert parts == Texts(before) by {
        assert |parts| == |before|;
        forall j | 0 <= j < |parts|
          ensures parts[j] == Texts(before)[j]
        {
          if j < |RoutePartsUpTo(w, i)| {
            assert before[j] == RoutePartsUpTo(w, i)[j];
          }
        }
      }
    }
    s := Join(parts, "-");
  }

  // ---------------------------------------------------------------- Tokens

  /** The length of a coordinate token at the front of `t`: up to and including the first `)`. */
  function CoordTokenLength(t: string): (n: nat)
    requires |t| > 0
    ensures 0 < n <= |t|
  {
    if t[0] == ')' || |t| == 1 then 1 else 1 + CoordTokenLength(t[1..])
  }

  /** The token ends just after the first `)`. */
  lemma {:induction false} CoordTokenLengthAt(t: string, k: nat)
    requires k < |t| && t[k] == ')' && ')' !in t[..k]
    ensures CoordTokenLength(t) == k + 1
  {
    if k > 0 {
      assert t[0] in t[..k];
      assert t[1..][k - 1] == ')';
      assert t[1..][..k - 1] == t[1..k];
      assert forall c :: c in t[1..k] ==> c in t[..k];
      CoordTokenLengthAt(t[1..], k - 1);
    }
  }

  /** Without a `)` the token runs to the end. */
  lemma {:induction false} CoordTokenLengthNone(t: string)
    requires |t| > 0 && ')' !in t
    ensures CoordTokenLength(t) == |t|
  {
    if |t| > 1 {
      assert t[0] in t;
      assert forall c :: c in t[1..] ==> c in t;
      CoordTokenLengthNone(t[1..]);
    }
  }

  /** The number of ASCII digits at the front of `t`. */
  function DigitRun(t: string): (n: nat)
    ensures n <= |t|
  {
    if |t| > 0 && IsAsciiDigit(t[0]) then 1 + DigitRun(t[1..]) else 0
  }

  /** The run is made of digits and is maximal. */
  lemma {:induction false} DigitRunFacts(t: string)
    ensures var n := DigitRun(t); AllDigits(t[..n]) && (n == |t| || !IsAsciiDigit(t[n]))
  {
    if |t| > 0 && IsAsciiDigit(t[0]) {
      DigitRunFacts(t[1..]);
      var n := DigitRun(t);
      assert t[..n] == [t[0]] + t[1..][..n - 1];
    }
  }

  /** A maximal run of digits from `from` to `j` is what `DigitRun` measures. */
  lemma {:induction false} DigitRunAt(s: string, from: nat, j: nat)
    requires from <= j <= |s| && AllDigits(s[from..j])
    requires j == |s| || !IsAsciiDigit(s[j])
    ensures DigitRun(s[from..]) == j - from
    decreases j - from
  {
    var t := s[from..];
    if from < j {
      assert t[0] == s[from] && t[1..] == s[from + 1..];
      assert s[from] == s[from..j][0];
      assert s[from + 1..j] == s[from..j][1..];
      DigitRunAt(s, from + 1, j);
    } else if j < |s| {
      assert t[0] == s[j];
    }
  }

  /** The length of a lane token at the front of `t`: `L`, an optional `-`, then digits. */
  function LaneTokenLength(t: string): (n: nat)
    requires |t| > 0
    ensures 0 < n <= |t|
  {
    var sign := if |t| > 1 && t[1] == '-' then 1 else 0;
    1 + sign + DigitRun(t[1 + sign..])
  }

  /** `tokenize`: dashes separate tokens; a token is `(...)` or a lane; anything else is an error. */
  function Tokens(s: string): Option<seq<string>>
    decreases |s|
  {
    if s == [] then Some([])
    else if s[0] == '-' then Tokens(s[1..])
    else if s[0] == '(' || s[0] == 'L' then
      var n := TokenLength(s);
      match Tokens(s[n..])
      case None => None
      case Some(rest) => Some([s[..n]] + rest)
    else None
  }

  function Prepend<T>(front: seq<T>, r: Option<seq<T>>): Option<seq<T>>
  {
    match r
    case None => None
    case Some(rest) => Some(front + rest)
  }

  lemma PrependEmpty<T>(r: Option<seq<T>>)
    ensures Prepend([], r) == r
  {
    if r.Some? {
      assert [] + r.value == r.value;
    }
  }

  lemma PrependAssoc<T>(a: seq<T>, b: seq<T>, r: Option<seq<T>>)
    ensures Prepend(a, Prepend(b, r)) == Prepend(a + b, r)
  {
    if r.Some? {
      assert a + (b + r.value) == (a + b) + r.value;
    }
  }

  /** The length of the token that starts `t`, when `t` starts with `(` or `L`. */
  function TokenLength(t: string): (n: nat)
    requires |t| > 0 && (t[0] == '(' || t[0] == 'L')
    ensures 0 < n <= |t|
  {
    if t[0] == '(' then CoordTokenLength(t) else LaneTokenLength(t)
  }

  /** The coordinate token starting at `s[i]`: characters up to and including the first `)`. */
  method ScanCoordToken(s: string, i: nat) returns (token: string, j: nat)
    requires i < |s| && s[i] == '('
    ensures j == i + TokenLength(s[i..]) && token == s[i..j]
  {
    ghost var rest := s[i..];
    token := [];
    j := i;
    while j < |s|
      invariant i <= j <= |s|
      invariant token == s[i..j] && ')' !in s[i..j]
    {
      var ch := s[j];
      token := token + [ch];
      j := j + 1;
      if ch == ')' {
        break;
      }
    }
    assert s[i..j] == rest[..j - i];
    if j > i && s[j - 1] == ')' {
      assert rest[..j - 1 - i] == s[i..j - 1];
      CoordTokenLengthAt(rest, j - 1 - i);
    } else {
      CoordTokenLengthNone(rest);
    }
  }

  /** The lane token starting at `s[i]`: `L`, an optional `-`, then the digits that follow. */
  method ScanLaneToken(s: string, i: nat) returns (token: string, j: nat)
    requires i < |s| && s[i] == 'L'
    ensures j == i + TokenLength(s[i..]) && token == s[i..j]
  {
    token := "L";
    j := i + 1;
    assert token == s[i..j];
    if j < |s| && s[j] == '-' {
      token := token + "-";
      j := j + 1;
      assert token == s[i..j];
    }
    ghost var digitsFrom := j;
    while j < |s| && IsAsciiDigit(s[j])
      invariant digitsFrom <= j <= |s|
      invariant token == s[i..j]
      invariant AllDigits(s[digitsFrom..j])
    {
      assert s[digitsFrom..j + 1] == s[digitsFrom..j] + [s[j]];
      assert s[i..j + 1] == s[i..j] + [s[j]];
      token := token + [s[j]];
      j := j + 1;
    }
    DigitRunAt(s, digitsFrom, j);
    ghost var rest := s[i..];
    assert rest[0] == 'L';
    assert |rest| > 1 ==> rest[1] == s[i + 1];
    assert rest[digitsFrom - i..] == s[digitsFrom..];
  }

  /** A text starting a token splits into that token and the tokens after it. */
  lemma TokensFront(t: string)
    requires |t| > 0 && (t[0] == '(' || t[0] == 'L')
    ensures Tokens(t) == Prepend([t[..TokenLength(t)]], Tokens(t[TokenLength(t)..]))
  {
  }

  /** A leading dash is skipped. */
  lemma TokensOfDash(s: string, j: nat)
    requires j < |s| && s[j] == '-'
    ensures Tokens(s[j..]) == Tokens(s[j + 1..])
  {
    assert s[j..][1..] == s[j + 1..];
  }

  /** A character that neither separates nor starts a token is an error. */
  lemma TokensOfOther(t: string)
    requires |t| > 0 && t[0] != '-' && t[0] != '(' && t[0] != 'L'
    ensures Tokens(t) == None
  {
  }

  /** One token, `s[i..j]`, taken off the front, in the terms of `Tokens`. */
  lemma {:induction false} TokensStep(s: string, i: nat, j: nat, token: string, tokens: seq<string>)
    requires i < |s| && (s[i] == '(' || s[i] == 'L')
    requires j == i + TokenLength(s[i..]) && token == s[i..j]
    ensures Prepend(tokens, Tokens(s[i..])) == Prepend(tokens + [token], Tokens(s[j..]))
  {
    var rest := s[i..];
    var n := TokenLength(rest);
    TokensFront(rest);
    assert rest[n..] == s[j..];
    assert rest[..n] == token;
    PrependAssoc(tokens, [token], Tokens(s[j..]));
  }

  /** The separator loop of `tokenize`: the index of the first character at or after `i` that is not `-`. */
  method SkipDashes(s: string, i: nat) returns (j: nat)
    requires i <= |s|
    ensures i <= j <= |s| && (j == |s| || s[j] != '-')
    ensures Tokens(s[i..]) == Tokens(s[j..])
  {
    j := i;
    while j < |s| && s[j] == '-'
      invariant i <= j <= |s|
      invariant Tokens(s[i..]) == Tokens(s[j..])
    {
      TokensOfDash(s, j);
      j := j + 1;
    }
  }

  /** `tokenize`, reading characters one at a time as the source does. */
  method Tokenize(s: string) returns (r: Option<seq<string>>)
    ensures r == Tokens(s)
  {
    ghost var all := Tokens(s);
    var tokens: seq<string> := [];
    var i := 0;
    assert s[0..] == s;
    PrependEmpty(all);
    while i < |s|
      invariant 0 <= i <= |s|
      invariant all == Prepend(tokens, Tokens(s[i..]))
    {
      i := SkipDashes(s, i);
      if i == |s| {
        break;
      }
      var token, j;
      if s[i] == '(' {
        token, j := ScanCoordToken(s, i);
      } else if s[i] == 'L' {
        token, j := ScanLaneToken(s, i);
      } else {
        TokensOfOther(s[i..]);
        return None;
      }
      TokensStep(s, i, j, token, tokens);
      tokens := tokens + [token];
      i := j;
    }
    assert s[i..] == [] && tokens + [] == tokens;
    r := Some(tokens);
  }

  // ---------------------------------------------------------------- Numbers

  function Pow10(k: nat): (p: nat)
    ensures p >= 1
  {
    if k == 0 then 1 else 10 * Pow10(k - 1)
  }

  /** Rust's saturating `f64 as i32` cast of an integral value. */
  function SaturateI32(x: int): int
  {
    if x < I32Min then I32Min else if x > I32Max then I32Max else x
  }

  /**
   * Twice the fraction `0.fp`, rounded half away from zero: 0 below a
   * quarter, 1 from a quarter to below three quarters, 2 from there on.
   */
  function RoundedDoubleFraction(fp: string): (r: nat)
    requires AllDigits(fp)
    ensures r <= 2
  {
    var v := DigitsValue(fp);
    var d := Pow10(|fp|);
    if 4 * v < d then 0 else if 4 * v < 3 * d then 1 else 2
  }

  /**
   * The value of an unsigned decimal numeral (digits with an optional
   * fraction, at least one digit), doubled and rounded half away from zero.
   */
  function ParseUnsignedDoubled(body: string): Option<nat>
  {
    match IndexOf(body, '.')
    case None => ParseDigitsDoubled(body, "")
    case Some(k) => ParseDigitsDoubled(body[..k], body[k + 1..])
  }

  /** Whole digits `ip` and fraction digits `fp`, at least one digit in all, doubled and rounded. */
  function ParseDigitsDoubled(ip: string, fp: string): Option<nat>
  {
    if |ip| + |fp| > 0 && AllDigits(ip) && AllDigits(fp) then
      Some(2 * DigitsValue(ip) + RoundedDoubleFraction(fp))
    else None
  }

  /**
   * A decimal numeral with an optional sign, doubled, rounded half away from
   * zero and cast to `i32`, as `(v * 2.0).round() as i32` does.
   */
  function ParseDoubled(s: string): Option<int>
  {
    var neg := |s| > 0 && s[0] == '-';
    var body := if |s| > 0 && (s[0] == '-' || s[0] == '+') then s[1..] else s;
    match ParseUnsignedDoubled(body)
    case None => None
    case Some(v) => Some(SaturateI32(if neg then -(v as int) else v))
  }

  /** `parse_coord`: `(col,row)` with surrounding and inner whitespace allowed. */
  function ParseCoord(token: string): Option<GridCoord>
  {
    var s := Trim(token);
    if !StartsWith(s, "(") || !EndsWith(s, ")") then None
    else
      var parts := Split(s[1..|s| - 1], ',');
      if |parts| != 2 then None
      else
        match (ParseDoubled(Trim(parts[0])), ParseDoubled(Trim(parts[1])))
        case (Some(col2), Some(row2)) => Some(GridCoord(col2, row2))
        case _ => None
  }

  /** Rust's `i32::from_str`: an optional sign, at least one digit, and the value in range. */
  function ParseI32(s: string): Option<int>
  {
    var neg := |s| > 0 && s[0] == '-';
    var digits := if |s| > 0 && (s[0] == '-' || s[0] == '+') then s[1..] else s;
    if |digits| == 0 || !AllDigits(digits) then None
    else
      var v: int := if neg then -(DigitsValue(digits) as int) else DigitsValue(digits);
      if I32Min <= v <= I32Max then Some(v) else None
  }

  /** `parse_lane`: `L` followed by an `i32`. */
  function ParseLane(token: string): Option<Lane>
  {
    var s := Trim(token);
    if !StartsWith(s, "L") then None else ParseI32(s[1..])
  }

  // ---------------------------------------------------------------- Reading

  /**
   * The waypoints of tokens from index `i` (even): a coordinate read by
   * `coordOf`, then the lane after it read by `laneOf`, or lane 0 at the end.
   */
  function ReadWaypoints(tokens: seq<string>, i: nat, coordOf: string -> Option<GridCoord>,
                         laneOf: string -> Option<Lane>): Option<seq<Waypoint>>
    decreases if i <= |tokens| then |tokens| - i else 0
  {
    if i >= |tokens| then Some([])
    else
      match coordOf(tokens[i])
      case None => None
      case Some(coord) =>
        var lane := if i + 1 < |tokens| then laneOf(tokens[i + 1]) else Some(0);
        match lane
        case None => None
        case Some(l) => Prepend([Waypoint(coord, l)], ReadWaypoints(tokens, i + 2, coordOf, laneOf))
  }

  /** The waypoints `string_to_route` reads from index `i` on. */
  function ParseWaypointsFrom(tokens: seq<string>, i: nat): Option<seq<Waypoint>>
  {
    ReadWaypoints(tokens, i, ParseCoord, ParseLane)
  }

  /** One step of `ReadWaypoints`: a coordinate and its lane read at index `i`, or a failure there. */
  lemma ReadWaypointsStep(tokens: seq<string>, i: nat, coordOf: string -> Option<GridCoord>,
                          laneOf: string -> Option<Lane>)
    requires i < |tokens|
    ensures coordOf(tokens[i]).None? ==> ReadWaypoints(tokens, i, coordOf, laneOf) == None
    ensures coordOf(tokens[i]).Some? && i + 1 < |tokens| && laneOf(tokens[i + 1]).None?
      ==> ReadWaypoints(tokens, i, coordOf, laneOf) == None
    ensures coordOf(tokens[i]).Some? && i + 1 < |tokens| && laneOf(tokens[i + 1]).Some?
      ==> (ReadWaypoints(tokens, i, coordOf, laneOf)
        == Prepend([Waypoint(coordOf(tokens[i]).value, laneOf(tokens[i + 1]).value)],
                   ReadWaypoints(tokens, i + 2, coordOf, laneOf)))
    ensures coordOf(tokens[i]).Some? && i + 1 >= |tokens|
      ==> (ReadWaypoints(tokens, i, coordOf, laneOf)
        == Prepend([Waypoint(coordOf(tokens[i]).value, 0)], ReadWaypoints(tokens, i + 2, coordOf, laneOf)))
  {
  }

  /** What `string_to_route` accepts and returns. */
  function RouteOfText(s: string): Option<Route>
  {
    var t := Trim(s);
    if t == "" then None
    else
      match Tokens(t)
      case None => None
      case Some(tokens) =>
        if |tokens| == 0 || |tokens| % 2 == 0 then None
        else
          match ParseWaypointsFrom(tokens, 0)
          case None => None
          case Some(w) => if |w| < 2 then None else Some(Route(w, ComplexityOf(w)))
  }

  /** The waypoint loop of `string_to_route`: coordinates at even indices, each with the lane after it. */
  method ParseWaypoints(tokens: seq<string>) returns (r: Option<seq<Waypoint>>)
    ensures r == ParseWaypointsFrom(tokens, 0)
  {
    var waypoints: seq<Waypoint> := [];
    var i := 0;
    PrependEmpty(ParseWaypointsFrom(tokens, 0));
    while i < |tokens|
      invariant i % 2 == 0
      invariant ParseWaypointsFrom(tokens, 0) == Prepend(waypoints, ParseWaypointsFrom(tokens, i))
      decreases |tokens| - i
    {
      ReadWaypointsStep(tokens, i, ParseCoord, ParseLane);
      var coord := ParseCoord(tokens[i]);
      if coord.None? {
        return None;
      }
      var lane := 0;
      if i + 1 < |tokens| {
        var parsedLane := ParseLane(tokens[i + 1]);
        if parsedLane.None? {
          return None;
        }
        lane := parsedLane.value;
      }
      PrependAssoc(waypoints, [Waypoint(coord.value, lane)], ParseWaypointsFrom(tokens, i + 2));
      waypoints := waypoints + [Waypoint(coord.value, lane)];
      i := i + 2;
    }
    assert waypoints + [] == waypoints;
    r := Some(waypoints);
  }

  /** `string_to_route`. */
  method StringToRoute(s: string) returns (r: Option<Route>)
    ensures r == RouteOfText(s)
  {
    var t := Trim(s);
    if t == "" {
      return None;
    }
    var tokenized := Tokenize(t);
    if tokenized.None? {
      return None;
    }
    var tokens := tokenized.value;
    if |tokens| == 0 || |tokens| % 2 == 0 {
      return None;
    }
    var parsed := ParseWaypoints(tokens);
    if parsed.None? {
      return None;
    }
    var waypoints := parsed.value;
    if |waypoints| < 2 {
      return None;
    }
    var complexity := ComputeComplexity(waypoints);
    r := Some(Route(waypoints, complexity));
  }

  // ---------------------------------------------------------------- Round trip

  predicate InI32(x: int)
  {
    I32Min <= x <= I32Max
  }

  /** Every coordinate and lane of the route fits the source's `i32` fields. */
  predicate FitsI32(w: seq<Waypoint>)
  {
    forall i :: 0 <= i < |w| ==> InI32(w[i].coord.col2) && InI32(w[i].coord.row2) && InI32(w[i].lane)
  }

  /** The waypoints with the lane of the last one, which the text does not carry, set to 0. */
  function WithLastLaneZero(w: seq<Waypoint>): (r: seq<Waypoint>)
    requires |w| >= 1
    ensures |r| == |w| && r[|r| - 1] == Waypoint(w[|w| - 1].coord, 0)
    ensures forall i :: 0 <= i < |w| - 1 ==> r[i] == w[i]
  {
    w[..|w| - 1] + [Waypoint(w[|w| - 1].coord, 0)]
  }


  /** The text of a component has no separator, no bracket and no whitespace at its ends. */
  lemma ComponentTextShape(negative: bool, whole: nat, half: bool)
    ensures var t := ComponentText(negative, whole, half);
      && |t| > 0 && !IsWhitespace(t[0]) && !IsWhitespace(t[|t| - 1])
      && ',' !in t && ')' !in t
  {
  }

  /** The same for a written component. */
  lemma FormatComponentShape(x: int)
    ensures var t := FormatComponent(x);
      && |t| > 0 && !IsWhitespace(t[0]) && !IsWhitespace(t[|t| - 1])
      && ',' !in t && ')' !in t
  {
    var whole := HalfOf(Abs(x));
    ComponentTextShape(x < 0, whole, Abs(x) != 2 * whole);
  }

  /** Digits and a fraction that are all digits, at least one in all, are read directly. */
  lemma ParseDigitsOf(ip: string, fp: string)
    requires |ip| + |fp| > 0 && AllDigits(ip) && AllDigits(fp)
    ensures ParseDigitsDoubled(ip, fp) == Some(2 * DigitsValue(ip) + RoundedDoubleFraction(fp))
  {
  }

  /** A numeral without a point is read as its digits, doubled. */
  lemma ParseUnsignedWhole(body: string)
    requires |body| > 0 && AllDigits(body) && '.' !in body
    ensures ParseUnsignedDoubled(body) == Some(2 * DigitsValue(body))
  {
    assert IndexOf(body, '.') == None;
    assert RoundedDoubleFraction("") == 0;
    ParseDigitsOf(body, "");
  }

  /** A numeral with a point is read as its whole digits, doubled, and its rounded doubled fraction. */
  lemma ParseUnsignedPoint(body: string, ip: string, fp: string)
    requires body == ip + "." + fp && '.' !in ip && |ip| + |fp| > 0 && AllDigits(ip) && AllDigits(fp)
    ensures ParseUnsignedDoubled(body) == Some(2 * DigitsValue(ip) + RoundedDoubleFraction(fp))
  {
    assert body[|ip|] == '.' && body[..|ip|] == ip && body[|ip| + 1..] == fp;
    IndexOfAt(body, |ip|, '.');
    ParseDigitsOf(ip, fp);
  }

  /** The first occurrence of `c` is at `k` when `c` is at `k` and not before it. */
  lemma IndexOfAt(s: string, k: nat, c: char)
    requires k < |s| && s[k] == c && c !in s[..k]
    ensures IndexOf(s, c) == Some(k)
  {
    assert c in s by {
      assert s[k] == c;
    }
  }

  /** `.5` is half of one: twice it is 1. */
  lemma RoundedHalf()
    ensures AllDigits("5") && RoundedDoubleFraction("5") == 1
  {
    assert DigitsValue("5") == 5 by {
      assert "5"[..0] == "";
    }
  }

  /** Digits alone, or digits followed by `.5`, are read as twice their value, plus one for the half. */
  lemma DigitsParse(digits: string)
    requires |digits| > 0 && AllDigits(digits)
    ensures ParseUnsignedDoubled(digits) == Some(2 * DigitsValue(digits))
    ensures ParseUnsignedDoubled(digits + ".5") == Some(2 * DigitsValue(digits) + 1)
  {
    assert '.' !in digits by {
      assert !IsAsciiDigit('.');
    }
    ParseUnsignedWhole(digits);
    RoundedHalf();
    assert digits + ".5" == digits + "." + "5";
    ParseUnsignedPoint(digits + ".5", digits, "5");
  }

  /** Reading the digits of a whole number, with or without a half. */
  lemma {:induction false} UnsignedTextParse(whole: nat, half: bool)
    ensures ParseUnsignedDoubled(UnsignedText(whole, half)) == Some(2 * whole + (if half then 1 else 0))
  {
    var digits := NatToString(whole);
    DigitsValueOfNatToString(whole);
    DigitsParse(digits);
    if half {
      assert UnsignedText(whole, half) == digits + ".5";
    } else {
      assert UnsignedText(whole, half) == digits;
    }
  }

  /** An unsigned numeral starting with a digit reads as its value. */
  lemma ParseDoubledUnsigned(body: string, v: nat)
    requires |body| > 0 && IsAsciiDigit(body[0])
    requires ParseUnsignedDoubled(body) == Some(v)
    ensures ParseDoubled(body) == Some(SaturateI32(v))
  {
  }

  /** A `-` in front of an unsigned numeral negates its value. */
  lemma ParseDoubledMinus(s: string, body: string, v: nat)
    requires |s| > 0 && s[0] == '-' && s[1..] == body
    requires ParseUnsignedDoubled(body) == Some(v)
    ensures ParseDoubled(s) == Some(SaturateI32(-(v as int)))
  {
  }

  /** A leading `-` negates the value of an unsigned numeral. */
  lemma ParseDoubledNegated(body: string, v: nat)
    requires ParseUnsignedDoubled(body) == Some(v)
    ensures ParseDoubled("-" + body) == Some(SaturateI32(-(v as int)))
  {
    assert ("-" + body)[1..] == body;
    ParseDoubledMinus("-" + body, body, v);
  }

  /** Reading the text of a component: the sign, twice the whole part, and the half. */
  lemma {:induction false} ComponentTextParse(negative: bool, whole: nat, half: bool)
    ensures ParseDoubled(ComponentText(negative, whole, half))
      == Some(SaturateI32(if negative then -(2 * whole + (if half then 1 else 0)) else 2 * whole + (if half then 1 else 0)))
  {
    var body := UnsignedText(whole, half);
    var v := 2 * whole + (if half then 1 else 0);
    UnsignedTextParse(whole, half);
    if negative {
      ParseDoubledNegated(body, v);
    } else {
      assert body[0] == NatToString(whole)[0];
      ParseDoubledUnsigned(body, v);
    }
  }

  /** Reading a written component gives it back. */
  lemma {:induction false} ComponentRoundTrip(x: int)
    requires InI32(x)
    ensures ParseDoubled(FormatComponent(x)) == Some(x)
  {
    var whole := HalfOf(Abs(x));
    var half := Abs(x) != 2 * whole;
    var v: int := 2 * whole + (if half then 1 else 0);
    assert FormatComponent(x) == ComponentText(x < 0, whole, half);
    assert v == Abs(x);
    assert SaturateI32(if x < 0 then -v else v) == x;
    ComponentTextParse(x < 0, whole, half);
  }

  /** The text between the brackets of `(inner)`. */
  lemma Bracketed(a: string, b: string)
    ensures var s := "(" + a + "," + b + ")";
      && |s| >= 2 && s[0] == '(' && s[|s| - 1] == ')'
      && StartsWith(s, "(") && EndsWith(s, ")")
      && s[1..|s| - 1] == a + [','] + b
  {
    var s := "(" + a + "," + b + ")";
    assert s[1..|s| - 1] == a + [','] + b;
  }

  /** Two components without separators or outer whitespace are read as a pair. */
  lemma {:induction false} ParseCoordOf(a: string, b: string, col2: int, row2: int)
    requires |a| > 0 && !IsWhitespace(a[0]) && !IsWhitespace(a[|a| - 1]) && ',' !in a
    requires |b| > 0 && !IsWhitespace(b[0]) && !IsWhitespace(b[|b| - 1]) && ',' !in b
    requires ParseDoubled(a) == Some(col2) && ParseDoubled(b) == Some(row2)
    ensures ParseCoord("(" + a + "," + b + ")") == Some(GridCoord(col2, row2))
  {
    Bracketed(a, b);
    SplitTwo(a, b, ',');
    TrimOfTrimmed("(" + a + "," + b + ")");
    TrimOfTrimmed(a);
    TrimOfTrimmed(b);
  }

  /** Reading a written coordinate gives it back. */
  lemma {:induction false} CoordRoundTrip(c: GridCoord)
    requires InI32(c.col2) && InI32(c.row2)
    ensures ParseCoord(FormatCoord(c)) == Some(c)
  {
    FormatComponentShape(c.col2);
    FormatComponentShape(c.row2);
    ComponentRoundTrip(c.col2);
    ComponentRoundTrip(c.row2);
    ParseCoordOf(FormatComponent(c.col2), FormatComponent(c.row2), c.col2, c.row2);
  }

  /** Unsigned digits in range are read as their value. */
  lemma ParseI32Plain(digits: string)
    requires |digits| > 0 && AllDigits(digits) && InI32(DigitsValue(digits))
    ensures ParseI32(digits) == Some(DigitsValue(digits))
  {
    assert IsAsciiDigit(digits[0]);
  }

  /** A `-` and digits whose negation is in range are read as that negation. */
  lemma ParseI32Minus(s: string, digits: string)
    requires |s| > 0 && s[0] == '-' && s[1..] == digits
    requires |digits| > 0 && AllDigits(digits) && InI32(-(DigitsValue(digits) as int))
    ensures ParseI32(s) == Some(-(DigitsValue(digits) as int))
  {
  }

  /** Rust's `i32::from_str` reads back the decimal text of any `i32`. */
  lemma {:induction false} ParseI32OfIntToString(x: int)
    requires InI32(x)
    ensures ParseI32(IntToString(x)) == Some(x)
  {
    var digits := NatToString(Abs(x));
    DigitsValueOfNatToString(Abs(x));
    if x < 0 {
      assert IntToString(x) == "-" + digits;
      assert ("-" + digits)[1..] == digits;
      ParseI32Minus(IntToString(x), digits);
    } else {
      ParseI32Plain(digits);
    }
  }

  /** Reading a written lane gives it back. */
  lemma {:induction false} LaneRoundTrip(lane: Lane)
    requires InI32(lane)
    ensures ParseLane(LaneText(lane)) == Some(lane)
  {
    var t := IntToString(lane);
    var s := LaneText(lane);
    assert |t| > 0 && !IsWhitespace(t[|t| - 1]) by {
      assert t[|t| - 1] == NatToString(Abs(lane))[|NatToString(Abs(lane))| - 1];
    }
    assert s[|s| - 1] == t[|t| - 1];
    TrimOfTrimmed(s);
    assert s[1..] == t;
    ParseI32OfIntToString(lane);
  }

  /** Text `(...)` with its only `)` at the end, or `L`, an optional `-` and at least one digit. */
  predicate IsTokenText(p: string)
  {
    || (|p| >= 2 && p[0] == '(' && p[|p| - 1] == ')' && ')' !in p[..|p| - 1])
    || (|p| >= 2 && p[0] == 'L' && AllDigits(p[1..]))
    || (|p| >= 3 && p[0] == 'L' && p[1] == '-' && AllDigits(p[2..]))
  }

  /** A token followed by a dash or by nothing is read whole. */
  lemma {:induction false} TokenLengthOfText(p: string, r: string)
    requires IsTokenText(p) && (r == [] || r[0] == '-')
    ensures (p + r)[0] == p[0] && TokenLength(p + r) == |p|
  {
    var s := p + r;
    assert s[..|p|] == p;
    if p[0] == '(' {
      assert s[|p| - 1] == ')' && s[..|p| - 1] == p[..|p| - 1];
      CoordTokenLengthAt(s, |p| - 1);
    } else {
      var sign := if p[1] == '-' then 1 else 0;
      assert s[1 + sign..|p|] == p[1 + sign..];
      DigitRunAt(s, 1 + sign, |p|);
      assert s[1 + sign..][..0] == [];
    }
  }

  /** A token text followed by a dash and text that reads as `rest` is read as that token, then `rest`. */
  lemma {:induction false} TokensCons(s: string, p: string, tail: string, rest: seq<string>)
    requires IsTokenText(p) && s == p + ("-" + tail) && Tokens(tail) == Some(rest)
    ensures Tokens(s) == Some([p] + rest)
  {
    TokenLengthOfText(p, "-" + tail);
    assert s[..|p|] == p && s[|p|..] == "-" + tail;
    assert TokenLength(s) == |p|;
    TokensOfDash(s, |p|);
    assert s[|p| + 1..] == tail;
    TokensFront(s);
  }

  /** A token text on its own is read as one token. */
  lemma {:induction false} TokensSingle(p: string)
    requires IsTokenText(p)
    ensures Tokens(p) == Some([p])
  {
    TokenLengthOfText(p, []);
    assert p + [] == p;
    assert TokenLength(p) == |p|;
    assert p[|p|..] == [] && p[..|p|] == p;
    assert Tokens(p[|p|..]) == Some([]);
    TokensFront(p);
    assert [p] + [] == [p];
  }

  /** Dash-joined token texts tokenize back into themselves. */
  lemma {:induction false} TokensOfJoin(parts: seq<string>)
    requires forall i :: 0 <= i < |parts| ==> IsTokenText(parts[i])
    ensures Tokens(Join(parts, "-")) == Some(parts)
  {
    if |parts| == 0 {
      assert Join(parts, "-") == [];
    } else if |parts| == 1 {
      TokensSingle(parts[0]);
      assert Join(parts, "-") == parts[0] && [parts[0]] == parts;
    } else {
      var tail := Join(parts[1..], "-");
      assert forall i :: 0 <= i < |parts[1..]| ==> IsTokenText(parts[1..][i]) by {
        forall i | 0 <= i < |parts[1..]|
          ensures IsTokenText(parts[1..][i])
        {
          assert parts[1..][i] == parts[i + 1];
        }
      }
      TokensOfJoin(parts[1..]);
      assert [parts[0]] + parts[1..] == parts;
      TokensCons(Join(parts, "-"), parts[0], tail, parts[1..]);
    }
  }

  /** The parts of the first `n` waypoints: coordinates at even indices, the lanes between. */
  lemma {:induction false} RoutePartsIndex(w: seq<Waypoint>, n: nat, k: nat)
    requires n <= |w|
    ensures |RoutePartsUpTo(w, n)| == if n == |w| && n > 0 then 2 * n - 1 else 2 * n
    ensures k < n ==> RoutePartsUpTo(w, n)[2 * k] == CoordPart(w[k].coord)
    ensures k < n && k + 1 < |w| ==> RoutePartsUpTo(w, n)[2 * k + 1] == LanePart(w[k].lane)
  {
    if n > 0 {
      RoutePartsIndex(w, n - 1, k);
    }
  }

  /** A bracketed pair of texts without `)` is a coordinate token text. */
  lemma BracketedToken(a: string, b: string)
    requires ')' !in a && ')' !in b
    ensures IsTokenText("(" + a + "," + b + ")")
  {
    var t := "(" + a + "," + b + ")";
    assert t[..|t| - 1] == "(" + a + "," + b;
  }

  /** `L`, an optional `-` and at least one digit make a lane token text. */
  lemma LaneToken(sign: string, digits: string)
    requires (sign == "" || sign == "-") && |digits| > 0 && AllDigits(digits)
    ensures IsTokenText("L" + (sign + digits))
  {
    var t := "L" + (sign + digits);
    if sign == "" {
      assert t[1..] == digits;
    } else {
      assert t[1] == '-' && t[2..] == digits;
    }
  }

  /** Every part's text is a token text. */
  lemma {:induction false} PartIsToken(p: Part)
    requires p.CoordPart? ==> InI32(p.coord.col2) && InI32(p.coord.row2)
    ensures IsTokenText(PartText(p))
  {
    match p
    case CoordPart(c) =>
      FormatComponentShape(c.col2);
      FormatComponentShape(c.row2);
      BracketedToken(FormatComponent(c.col2), FormatComponent(c.row2));
    case LanePart(l) =>
      if l < 0 {
        LaneToken("-", NatToString(-l));
      } else {
        assert NatToString(l) == "" + NatToString(l);
        LaneToken("", NatToString(l));
      }
  }

  /** The token of the `k`-th coordinate. */
  function CoordTokenAt(tokens: seq<string>, k: nat): string
    requires 2 * k < |tokens|
  {
    tokens[2 * k]
  }

  /** The token of the lane after the `k`-th coordinate. */
  function LaneTokenAt(tokens: seq<string>, k: nat): string
    requires 2 * k + 1 < |tokens|
  {
    tokens[2 * k + 1]
  }

  /** Tokens that read coordinate by coordinate and lane by lane as the waypoints `w`. */
  predicate ReadsAs(tokens: seq<string>, w: seq<Waypoint>, coordOf: string -> Option<GridCoord>,
                    laneOf: string -> Option<Lane>)
  {
    && |w| >= 1 && |tokens| == 2 * |w| - 1 && w[|w| - 1].lane == 0
    && (forall k {:trigger CoordTokenAt(tokens, k)} :: 0 <= k < |w| ==> coordOf(CoordTokenAt(tokens, k)) == Some(w[k].coord))
    && (forall k {:trigger LaneTokenAt(tokens, k)} :: 0 <= k < |w| - 1 ==> laneOf(LaneTokenAt(tokens, k)) == Some(w[k].lane))
  }

  /** Such tokens are read back, from coordinate `k` on, as the waypoints from `k` on. */
  lemma {:induction false} ReadWaypointsOfReads(tokens: seq<string>, w: seq<Waypoint>, k: nat,
                                                coordOf: string -> Option<GridCoord>, laneOf: string -> Option<Lane>)
    requires ReadsAs(tokens, w, coordOf, laneOf) && k <= |w|
    ensures ReadWaypoints(tokens, 2 * k, coordOf, laneOf) == Some(w[k..])
    decreases |w| - k
  {
    if k < |w| {
      assert coordOf(CoordTokenAt(tokens, k)) == Some(w[k].coord);
      if k < |w| - 1 {
        assert laneOf(LaneTokenAt(tokens, k)) == Some(w[k].lane);
      }
      ReadWaypointsOfReads(tokens, w, k + 1, coordOf, laneOf);
      assert w[k..] == [w[k]] + w[k + 1..];
    } else {
      assert w[k..] == [];
    }
  }

  /** The coordinate texts of a route's parts read as its coordinates. */
  lemma {:induction false} RouteCoordsRead(w: seq<Waypoint>, k: nat)
    requires FitsI32(w) && k < |w|
    ensures 2 * k < |Texts(RoutePartsUpTo(w, |w|))|
    ensures ParseCoord(CoordTokenAt(Texts(RoutePartsUpTo(w, |w|)), k)) == Some(WithLastLaneZero(w)[k].coord)
  {
    var texts := Texts(RoutePartsUpTo(w, |w|));
    RoutePartsIndex(w, |w|, k);
    assert texts[2 * k] == FormatCoord(w[k].coord);
    assert WithLastLaneZero(w)[k].coord == w[k].coord;
    CoordRoundTrip(w[k].coord);
  }

  /** The lane texts of a route's parts read as its lanes. */
  lemma {:induction false} RouteLanesRead(w: seq<Waypoint>, k: nat)
    requires FitsI32(w) && k + 1 < |w|
    ensures 2 * k + 1 < |Texts(RoutePartsUpTo(w, |w|))|
    ensures ParseLane(LaneTokenAt(Texts(RoutePartsUpTo(w, |w|)), k)) == Some(WithLastLaneZero(w)[k].lane)
  {
    var texts := Texts(RoutePartsUpTo(w, |w|));
    RoutePartsIndex(w, |w|, k);
    assert texts[2 * k + 1] == LaneText(w[k].lane);
    assert WithLastLaneZero(w)[k].lane == w[k].lane;
    LaneRoundTrip(w[k].lane);
  }

  /** The texts of a route's parts read as its waypoints with the last lane set to 0. */
  lemma {:induction false} RoutePartsRead(w: seq<Waypoint>)
    requires |w| >= 1 && FitsI32(w)
    ensures ReadsAs(Texts(RoutePartsUpTo(w, |w|)), WithLastLaneZero(w), ParseCoord, ParseLane)
  {
    RoutePartsIndex(w, |w|, 0);
    forall k | 0 <= k < |w| {
      RouteCoordsRead(w, k);
    }
    forall k | 0 <= k < |w| - 1 {
      RouteLanesRead(w, k);
    }
  }

  lemma {:induction false} JoinEnds(parts: seq<string>)
    requires |parts| > 0 && |parts[0]| > 0 && |parts[|parts| - 1]| > 0
    ensures |Join(parts, "-")| > 0
    ensures Join(parts, "-")[0] == parts[0][0]
    ensures Join(parts, "-")[|Join(parts, "-")| - 1] == parts[|parts| - 1][|parts[|parts| - 1]| - 1]
  {
    if |parts| >= 2 {
      var tail := parts[1..];
      assert tail[|tail| - 1] == parts[|parts| - 1];
      JoinEndsLast(tail);
      assert Join(parts, "-") == parts[0] + "-" + Join(tail, "-");
    }
  }

  /** The last character of a join with a non-empty last part is that part's last character. */
  lemma {:induction false} JoinEndsLast(parts: seq<string>)
    requires |parts| > 0 && |parts[|parts| - 1]| > 0
    ensures |Join(parts, "-")| > 0
    ensures Join(parts, "-")[|Join(parts, "-")| - 1] == parts[|parts| - 1][|parts[|parts| - 1]| - 1]
  {
    if |parts| >= 2 {
      var tail := parts[1..];
      assert tail[|tail| - 1] == parts[|parts| - 1];
      JoinEndsLast(tail);
      assert Join(parts, "-") == parts[0] + "-" + Join(tail, "-");
    }
  }

  /** Each part of a route that fits `i32` is a token text. */
  lemma {:induction false} RoutePartsAreTokens(w: seq<Waypoint>, i: nat)
    requires FitsI32(w) && i < |RoutePartsUpTo(w, |w|)|
    ensures IsTokenText(Texts(RoutePartsUpTo(w, |w|))[i])
  {
    RoutePartsIndex(w, |w|, i / 2);
    PartIsToken(RoutePartsUpTo(w, |w|)[i]);
  }

  /** A trimmed text splitting into an odd number of tokens that read as two or more waypoints. */
  lemma RouteOfTokens(s: string, tokens: seq<string>, r: seq<Waypoint>)
    requires s != "" && Trim(s) == s && Tokens(s) == Some(tokens)
    requires |tokens| % 2 == 1 && ParseWaypointsFrom(tokens, 0) == Some(r) && |r| >= 2
    ensures RouteOfText(s) == Some(Route(r, ComplexityOf(r)))
  {
  }

  /** A route of `n` waypoints has `2n - 1` parts, an odd number. */
  lemma {:induction false} RoutePartsOdd(w: seq<Waypoint>)
    requires |w| >= 1
    ensures |Texts(RoutePartsUpTo(w, |w|))| % 2 == 1
  {
    RoutePartsIndex(w, |w|, 0);
    var n := |Texts(RoutePartsUpTo(w, |w|))|;
    assert n == 2 * (|w| - 1) + 1;
  }

  /** The text of a route is trimmed and splits into the texts of its parts. */
  lemma {:induction false} RouteTextTokens(w: seq<Waypoint>)
    requires |w| >= 2 && FitsI32(w)
    ensures Tokens(RouteText(w)) == Some(Texts(RoutePartsUpTo(w, |w|)))
    ensures RouteText(w) != "" && Trim(RouteText(w)) == RouteText(w)
  {
    var texts := Texts(RoutePartsUpTo(w, |w|));
    var s := RouteText(w);
    RoutePartsIndex(w, |w|, 0);
    RoutePartsIndex(w, |w|, |w| - 1);
    forall i | 0 <= i < |texts|
      ensures IsTokenText(texts[i])
    {
      RoutePartsAreTokens(w, i);
    }
    TokensOfJoin(texts);
    assert texts[0] == FormatCoord(w[0].coord);
    assert texts[|texts| - 1] == FormatCoord(w[|w| - 1].coord);
    JoinEnds(texts);
    TrimOfTrimmed(s);
  }

  /** The texts of a route's parts read as its waypoints, the last lane set to 0. */
  lemma {:induction false} RouteTextsRead(w: seq<Waypoint>)
    requires |w| >= 2 && FitsI32(w)
    ensures ParseWaypointsFrom(Texts(RoutePartsUpTo(w, |w|)), 0) == Some(WithLastLaneZero(w))
  {
    var r := WithLastLaneZero(w);
    RoutePartsRead(w);
    ReadWaypointsOfReads(Texts(RoutePartsUpTo(w, |w|)), r, 0, ParseCoord, ParseLane);
    assert r[0..] == r;
  }

  /**
   * Reading the text of a route of two or more waypoints gives back its
   * waypoints, the lane of the last one set to 0, and their complexity.
   */
  lemma {:induction false} RouteTextRoundTrip(w: seq<Waypoint>)
    requires |w| >= 2 && FitsI32(w)
    ensures RouteOfText(RouteText(w)) == Some(Route(WithLastLaneZero(w), ComplexityOf(w)))
  {
    RouteTextTokens(w);
    RouteTextsRead(w);
    RoutePartsOdd(w);
    RouteOfTokens(RouteText(w), Texts(RoutePartsUpTo(w, |w|)), WithLastLaneZero(w));
    ComplexityIgnoresLastLane(w, 0);
  }

  /** A route whose last lane is 0 and whose complexity is its own comes back unchanged. */
  lemma {:induction false} RouteRoundTrip(route: Route)
    requires |route.waypoints| >= 2 && FitsI32(route.waypoints)
    requires route.waypoints[|route.waypoints| - 1].lane == 0
    requires route.complexity == ComplexityOf(route.waypoints)
    ensures RouteOfText(RouteText(route.waypoints)) == Some(route)
  {
    var w := route.waypoints;
    assert WithLastLaneZero(w) == w;
    RouteTextRoundTrip(w);
  }
}
