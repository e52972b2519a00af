/** Port ranges as text: printed for the tunnel form and read back from it. */
module PortRange {
  import opened Common
  import D = Decimal
  import P = Profiles

  // ---- Characters ----

  predicate IsDigit(c: char) {
    '0' <= c <= '9'
  }

  /** White space and line ends, as `trim` and `\s` know them. */
  predicate IsSpace(c: char) {
    var n := c as int;
    || 9 <= n <= 13 || n == 0x20 || n == 0xA0 || n == 0x1680 || 0x2000 <= n <= 0x200A
    || n == 0x2028 || n == 0x2029 || n == 0x202F || n == 0x205F || n == 0x3000 || n == 0xFEFF
  }

  predicate AllDigits(s: string) {
    s != [] && forall i :: 0 <= i < |s| ==> IsDigit(s[i])
  }

  predicate AllSpace(s: string) {
    forall i :: 0 <= i < |s| ==> IsSpace(s[i])
  }

  function Show(n: nat): string {
    var ds := D.Digits(n);
    seq(|ds|, i requires 0 <= i < |ds| => ('0' as int + ds[i]) as char)
  }

  function Number(s: string): nat
    requires AllDigits(s)
  {
    D.Value(seq(|s|, i requires 0 <= i < |s| => (s[i] as int - '0' as int) as D.Digit))
  }

  lemma NumberOfShow(n: nat)
    ensures AllDigits(Show(n)) && Number(Show(n)) == n
  {
    var s := Show(n);
    assert seq(|s|, i requires 0 <= i < |s| => (s[i] as int - '0' as int) as D.Digit) == D.Digits(n);
    D.ValueOfDigits(n);
  }

  // ---- Printing ----

  const DASH := "\U{2013}"

  /** A range is printed with an en dash; one port, or an end that is missing or zero, is printed alone. */
  function Range(start: nat, end: Option<nat>): string {
    if end.Some? && end.value != 0 && end.value != start then Show(start) + DASH + Show(end.value) else Show(start)
  }

  /** Replace the first en dash with a hyphen. */
  function Hyphenated(s: string): string {
    if s == [] then []
    else if s[0] == DASH[0] then "-" + s[1..]
    else [s[0]] + Hyphenated(s[1..])
  }

  lemma {:induction false} HyphenatedDigits(s: string, rest: string)
    requires forall i :: 0 <= i < |s| ==> IsDigit(s[i])
    ensures Hyphenated(s + rest) == s + Hyphenated(rest)
    decreases |s|
  {
    if s == [] {
      assert s + rest == rest;
    } else {
      HyphenatedDigits(s[1..], rest);
      assert (s + rest)[1..] == s[1..] + rest;
    }
  }

  // ---- Reading ----

  /** Length of the longest start of `s` made of digits, or of spaces. */
  function DigitRun(s: string): (n: nat)
    ensures n <= |s| && (n > 0 ==> AllDigits(s[..n])) && (n < |s| ==> !IsDigit(s[n]))
  {
    if s == [] || !IsDigit(s[0]) then 0
    else
      assert forall k :: 0 < k <= |s| ==> forall i :: 0 < i < k ==> s[..k][i] == s[1..][..k - 1][i - 1];
      1 + DigitRun(s[1..])
  }

  function SpaceRun(s: string): (n: nat)
    ensures n <= |s| && AllSpace(s[..n]) && (n < |s| ==> !IsSpace(s[n]))
  {
    if s == [] || !IsSpace(s[0]) then 0
    else
      assert forall k :: 0 < k <= |s| ==> forall i :: 0 < i < k ==> s[..k][i] == s[1..][..k - 1][i - 1];
      1 + SpaceRun(s[1..])
  }

  function TrimEnd(s: string): string {
    if s != [] && IsSpace(s[|s| - 1]) then TrimEnd(s[..|s| - 1]) else s
  }

  function Trim(s: string): string {
    TrimEnd(s[SpaceRun(s)..])
  }

  /** The one or two digit groups of a well-formed text. */
  function Groups(text: string): (r: Option<(string, Option<string>)>)
    ensures r.Some? ==> AllDigits(r.value.0) && (r.value.1.Some? ==> AllDigits(r.value.1.value))
  {
    CoreGroups(Trim(text))
  }

  function CoreGroups(v: string): (r: Option<(string, Option<string>)>)
    ensures r.Some? ==> AllDigits(r.value.0) && (r.value.1.Some? ==> AllDigits(r.value.1.value))
  {
    var n := DigitRun(v);
    assert v[..|v|] == v;
    if n == 0 then None
    else if n == |v| then Some((v, None))
    else
      var rest := v[n..];
      var dash := rest[SpaceRun(rest)..];
      if dash == [] || dash[0] != '-' then None
      else
        var end := dash[1..][SpaceRun(dash[1..])..];
        assert end[..|end|] == end;
        if end == [] || DigitRun(end) != |end| then None else Some((v[..n], Some(end)))
  }

  datatype ParseError = Malformed | OutOfRange | TooMany

  function CheckRange(start: nat, end: Option<nat>): Result<(nat, Option<nat>), ParseError> {
    if start < 1 || start > 65535 || (end.Some? && (end.value < start || end.value > 65535)) then Err(OutOfRange)
    else if end.Some? && end.value - start >= 256 then Err(TooMany)
    else Ok((start, end))
  }

  function Parse(text: string): Result<(nat, Option<nat>), ParseError> {
    match Groups(text)
    case None => Err(Malformed)
    case Some((first, second)) =>
      CheckRange(Number(first), if second.Some? then Some(Number(second.value)) else None)
  }

  // ---- The grammar read back ----

  predicate SpaceOff(s: string) {
    s == [] || (!IsSpace(s[0]) && !IsSpace(s[|s| - 1]))
  }

  lemma {:induction false} TrimEndMeans(s: string) returns (after: string)
    ensures s == TrimEnd(s) + after && AllSpace(after)
    ensures TrimEnd(s) == [] || !IsSpace(TrimEnd(s)[|TrimEnd(s)| - 1])
    decreases |s|
  {
    if s != [] && IsSpace(s[|s| - 1]) {
      var rest := TrimEndMeans(s[..|s| - 1]);
      after := rest + [s[|s| - 1]];
      assert s == TrimEnd(s) + after;
    } else {
      after := [];
    }
  }

  lemma {:induction false} TrimEndOf(core: string, after: string)
    requires AllSpace(after) && (core == [] || !IsSpace(core[|core| - 1]))
    ensures TrimEnd(core + after) == core
    decreases |after|
  {
    if after == [] {
      assert core + after == core;
    } else {
      TrimEndOf(core, after[..|after| - 1]);
      assert (core + after)[..|core + after| - 1] == core + after[..|after| - 1];
    }
  }

  lemma {:induction false} SpaceRunOf(before: string, s: string)
    requires AllSpace(before) && (s == [] || !IsSpace(s[0]))
    ensures SpaceRun(before + s) == |before| && (before + s)[|before|..] == s
    decreases |before|
  {
    if before == [] {
      assert before + s == s;
    } else {
      SpaceRunOf(before[1..], s);
      assert before == [before[0]] + before[1..];
      assert (before + s)[1..] == before[1..] + s;
    }
  }

  lemma {:induction false} DigitRunOf(digits: string, s: string)
    requires (forall i :: 0 <= i < |digits| ==> IsDigit(digits[i])) && (s == [] || !IsDigit(s[0]))
    ensures DigitRun(digits + s) == |digits| && (digits + s)[|digits|..] == s && (digits + s)[..|digits|] == digits
    decreases |digits|
  {
    if digits == [] {
      assert digits + s == s;
    } else {
      DigitRunOf(digits[1..], s);
      assert (digits + s)[1..] == digits[1..] + s;
    }
  }

  /** Spaces around: `core` is what trimming leaves. */
  lemma TrimOf(before: string, core: string, after: string)
    requires AllSpace(before) && AllSpace(after) && core != [] && SpaceOff(core)
    ensures Trim(before + core + after) == core
  {
    assert before + core + after == before + (core + after);
    SpaceRunOf(before, core + after);
    TrimEndOf(core, after);
  }

  lemma TrimMeans(s: string) returns (before: string, after: string)
    ensures AllSpace(before) && AllSpace(after) && s == before + Trim(s) + after
    ensures SpaceOff(Trim(s))
  {
    var n := SpaceRun(s);
    before := s[..n];
    after := TrimEndMeans(s[n..]);
    var rest := s[n..];
    var trimmed := TrimEnd(rest);
    Cut(s, n);
    FirstStays(rest, trimmed, after);
    Around(s, before, rest, trimmed, after);
  }

  lemma Around(s: string, before: string, rest: string, core: string, after: string)
    requires s == before + rest && rest == core + after
    ensures s == before + core + after
  {
  }

  lemma FirstStays(s: string, trimmed: string, after: string)
    requires s == trimmed + after && (s == [] || !IsSpace(s[0]))
    ensures trimmed == [] || !IsSpace(trimmed[0])
  {
    if trimmed != [] {
      assert trimmed[0] == s[0];
    }
  }

  /** Digits, or digits, a hyphen with optional spaces around it, and digits; with optional spaces at both ends. */
  predicate Reads(text: string, first: string, second: Option<string>, gaps: (string, string, string, string)) {
    && AllDigits(first) && (second.Some? ==> AllDigits(second.value))
    && AllSpace(gaps.0) && AllSpace(gaps.1) && AllSpace(gaps.2) && AllSpace(gaps.3)
    && text == gaps.0 + Core(first, second, gaps.1, gaps.2) + gaps.3
  }

  function Core(first: string, second: Option<string>, before: string, after: string): string {
    match second
    case None => first
    case Some(end) => first + (before + ("-" + (after + end)))
  }

  lemma GroupsOf(text: string, first: string, second: Option<string>, gaps: (string, string, string, string))
    requires Reads(text, first, second, gaps)
    ensures Groups(text) == Some((first, second))
  {
    var core := Core(first, second, gaps.1, gaps.2);
    TrimOf(gaps.0, core, gaps.3);
    match second
    case None =>
      DigitRunOf(first, []);
      assert first + [] == first;
    case Some(end) =>
      var dash := "-" + (gaps.2 + end);
      DigitRunOf(first, gaps.1 + dash);
      SpaceRunOf(gaps.1, dash);
      assert dash[1..] == gaps.2 + end;
      SpaceRunOf(gaps.2, end);
      DigitRunOf(end, []);
      assert end + [] == end;
  }

  lemma Cut(s: string, n: nat)
    requires n <= |s|
    ensures s == s[..n] + s[n..]
  {
  }

  lemma Joined(v: string, first: string, rest: string, before: string, dash: string, tail: string, after: string, end: string)
    requires v == first + rest && rest == before + dash && dash == "-" + tail && tail == after + end
    ensures v == Core(first, Some(end), before, after)
  {
  }

  lemma CoreRead(v: string) returns (before: string, after: string)
    requires CoreGroups(v).Some?
    ensures AllSpace(before) && AllSpace(after)
    ensures v == Core(CoreGroups(v).value.0, CoreGroups(v).value.1, before, after)
  {
    var n := DigitRun(v);
    if n == |v| {
      before, after := [], [];
    } else {
      var rest := v[n..];
      var k := SpaceRun(rest);
      var dash := rest[k..];
      var tail := dash[1..];
      var m := SpaceRun(tail);
      before, after := rest[..k], tail[..m];
      Cut(v, n);
      Cut(rest, k);
      Cut(tail, m);
      assert dash == "-" + tail;
      Joined(v, v[..n], rest, before, dash, tail, after, tail[m..]);
    }
  }

  lemma GroupsRead(text: string) returns (gaps: (string, string, string, string))
    requires Groups(text).Some?
    ensures Reads(text, Groups(text).value.0, Groups(text).value.1, gaps)
  {
    var before, after := TrimMeans(text);
    var left, right := CoreRead(Trim(text));
    gaps := (before, left, right, after);
  }

  /** The reader accepts exactly the texts of the grammar, each in one way. */
  lemma GroupsIffGrammar(text: string, first: string, second: Option<string>)
    ensures Groups(text) == Some((first, second)) <==> exists gaps :: Reads(text, first, second, gaps)
  {
    if Groups(text) == Some((first, second)) {
      var gaps := GroupsRead(text);
    }
    forall gaps | Reads(text, first, second, gaps) ensures Groups(text) == Some((first, second)) {
      GroupsOf(text, first, second, gaps);
    }
  }

  // ---- Round trips ----

  predicate ValidRange(start: nat, end: Option<nat>) {
    1 <= start <= 65535 && (end.Some? ==> start <= end.value <= 65535 && end.value - start < 256)
  }

  /** What the text can tell: the end of a one-port range is lost. */
  function Canonical(start: nat, end: Option<nat>): (nat, Option<nat>) {
    (start, if end == Some(start) then None else end)
  }

  lemma HyphenatedRange(start: nat, end: Option<nat>)
    ensures Hyphenated(Range(start, end))
         == if end.Some? && end.value != 0 && end.value != start then Show(start) + ("-" + Show(end.value)) else Show(start)
  {
    NumberOfShow(start);
    if end.Some? && end.value != 0 && end.value != start {
      assert Show(start) + DASH + Show(end.value) == Show(start) + (DASH + Show(end.value));
      HyphenatedDigits(Show(start), DASH + Show(end.value));
      assert (DASH + Show(end.value))[1..] == Show(end.value);
    } else {
      HyphenatedDigits(Show(start), []);
      assert Show(start) + [] == Show(start);
    }
  }

  lemma GroupsWithoutGaps(first: string, second: Option<string>)
    requires AllDigits(first) && (second.Some? ==> AllDigits(second.value))
    ensures Groups(if second.Some? then first + ("-" + second.value) else first) == Some((first, second))
  {
    var core := Core(first, second, [], []);
    assert [] + core + [] == core;
    if second.Some? {
      assert [] + second.value == second.value;
      assert [] + ("-" + second.value) == "-" + second.value;
    }
    GroupsOf(core, first, second, ([], [], [], []));
  }

  lemma GroupsOfRange(start: nat, end: Option<nat>)
    ensures Groups(Hyphenated(Range(start, end)))
         == Some((Show(start), if end.Some? && end.value != 0 && end.value != start then Some(Show(end.value)) else None))
  {
    HyphenatedRange(start, end);
    NumberOfShow(start);
    if end.Some? && end.value != 0 && end.value != start {
      NumberOfShow(end.value);
      GroupsWithoutGaps(Show(start), Some(Show(end.value)));
    } else {
      GroupsWithoutGaps(Show(start), None);
    }
  }

  lemma ParseOfShown(text: string, start: nat, end: Option<nat>)
    requires Groups(text) == Some((Show(start), if end.Some? then Some(Show(end.value)) else None))
    ensures Parse(text) == CheckRange(start, end)
  {
    NumberOfShow(start);
    if end.Some? {
      NumberOfShow(end.value);
    }
  }

  /** Reading back a printed valid range gives the range, but for the end of a one-port range. */
  lemma ParseOfRange(start: nat, end: Option<nat>)
    requires ValidRange(start, end)
    ensures Parse(Hyphenated(Range(start, end))) == Ok(Canonical(start, end))
  {
    GroupsOfRange(start, end);
    ParseOfShown(Hyphenated(Range(start, end)), start, Canonical(start, end).1);
  }

  /** Whatever is read is a valid range, and only valid ranges are read. */
  lemma ParsedIsValid(text: string)
    requires Parse(text).Ok?
    ensures ValidRange(Parse(text).value.0, Parse(text).value.1)
  {
  }

  // ---- The tunnel form ----

  function FormText(start: P.Port, end: Option<P.Port>): string {
    Hyphenated(Range(start, if end.Some? then Some(end.value as nat) else None))
  }

  function Span(r: (nat, Option<nat>)): int {
    if r.1.Some? then r.1.value - r.0 else 0
  }

  datatype FormError = Text(error: ParseError) | UnequalRanges

  function PortOf(n: Option<nat>): Option<P.Port> {
    if n.Some? && n.value < 65536 then Some(n.value) else None
  }

  /** Submitting the form: both texts are read and must span the same number of ports. */
  function Submit(t: P.Tunnel, local: string, remote: string): Result<P.Tunnel, FormError> {
    if Parse(local).Err? then Err(Text(Parse(local).error))
    else if Parse(remote).Err? then Err(Text(Parse(remote).error))
    else
      var l, r := Parse(local).value, Parse(remote).value;
      if Span(l) != Span(r) then Err(UnequalRanges)
      else Ok(t.(name := Trim(t.name), host := Trim(t.host),
                 local := l.0, localEnd := PortOf(l.1), remote := r.0, remoteEnd := PortOf(r.1)))
  }

  /** What the form accepts passes every port check of the profile; only the host name can still be refused. */
  lemma AcceptedRangesForward(rules: P.Rules, t: P.Tunnel, local: string, remote: string)
    requires Submit(t, local, remote).Ok?
    ensures var u := Submit(t, local, remote).value;
            if rules.hostOk(u.host) then P.Pairs(rules, u).Ok? && 1 <= |P.Pairs(rules, u).value| <= 256
                 && |P.Pairs(rules, u).value| == Span(Parse(local).value) + 1 == Span(Parse(remote).value) + 1
            else P.Pairs(rules, u) == Err(P.BadHost)
  {
    ParsedIsValid(local);
    ParsedIsValid(remote);
  }

  lemma ReadsOwnText(start: P.Port, end: Option<P.Port>)
    requires 1 <= start && (end.Some? ==> start <= end.value && end.value - start < 256)
    ensures Parse(FormText(start, end)) == Ok((start as nat, if end.None? || end.value == start then None else Some(end.value as nat)))
  {
    ParseOfRange(start, if end.Some? then Some(end.value as nat) else None);
  }

  lemma SubmitOf(t: P.Tunnel, local: string, remote: string, l: (nat, Option<nat>), r: (nat, Option<nat>))
    requires Parse(local) == Ok(l) && Parse(remote) == Ok(r) && Span(l) == Span(r)
    ensures Submit(t, local, remote).Ok?
    ensures var u := Submit(t, local, remote).value;
            u.local == l.0 && u.localEnd == PortOf(l.1) && u.remote == r.0 && u.remoteEnd == PortOf(r.1)
  {
    ParsedIsValid(local);
    ParsedIsValid(remote);
  }

  /** Opening a good tunnel in the form and submitting it unchanged keeps every port it forwards. */
  lemma UnchangedFormKeepsPorts(rules: P.Rules, t: P.Tunnel)
    requires P.Pairs(rules, t).Ok?
    ensures var form := Submit(t, FormText(t.local, t.localEnd), FormText(t.remote, t.remoteEnd));
            form.Ok? && (rules.hostOk(form.value.host) ==> P.Pairs(rules, form.value) == P.Pairs(rules, t))
  {
    ReadsOwnText(t.local, t.localEnd);
    ReadsOwnText(t.remote, t.remoteEnd);
    var local, remote := FormText(t.local, t.localEnd), FormText(t.remote, t.remoteEnd);
    SubmitOf(t, local, remote, Parse(local).value, Parse(remote).value);
    var u := Submit(t, local, remote).value;
    SameEndsSamePairs(rules, t, u);
  }

  lemma SameEndsSamePairs(rules: P.Rules, t: P.Tunnel, u: P.Tunnel)
    requires P.Pairs(rules, t).Ok? && u.local == t.local && u.remote == t.remote
    requires P.LocalEnd(u) == P.LocalEnd(t) && P.RemoteEnd(u) == P.RemoteEnd(t)
    ensures rules.hostOk(u.host) ==> P.Pairs(rules, u) == P.Pairs(rules, t)
  {
    if rules.hostOk(u.host) {
      assert P.Pairs(rules, u).value == P.Pairs(rules, t).value;
    }
  }
}
