/** The log record parser of `utils/log_parser.py`: it splits the submitted text into
    lines, tags each non-blank line with the first line format whose pattern matches
    at its start, and extracts the timestamp, source IP, user, command, threat
    indicators and a few lexical counts with first-match fallbacks and sentinel
    defaults. Each regular expression of the source is a hand-written matcher below
    that follows the regex's own backtracking; `re.IGNORECASE` is ASCII case folding. */
module LogParser {
  import opened Text
  import opened Scan

  // ================================================================ pattern pieces

  /** `\d{2}:\d{2}:\d{2}` at `c`. */
  predicate ClockAt(s: string, c: nat) {
    c + 8 <= |s| && IsDigit(s[c]) && IsDigit(s[c + 1]) && s[c + 2] == ':'
    && IsDigit(s[c + 3]) && IsDigit(s[c + 4]) && s[c + 5] == ':'
    && IsDigit(s[c + 6]) && IsDigit(s[c + 7])
  }

  /** The end of `\w{3}\s+\d{1,2}\s+\d{2}:\d{2}:\d{2}` matched at `p`. Each `\s+` has to
      take the whole run of whitespace, and `\d{1,2}` the whole run of digits, because
      the next item cannot match a character of the same kind. */
  function SyslogStampEnd(s: string, p: nat): (r: Option<nat>)
    ensures r.Some? ==> p < r.value <= |s|
  {
    if p + 3 <= |s| && IsWordChar(s[p]) && IsWordChar(s[p + 1]) && IsWordChar(s[p + 2]) then
      var a := RunEnd(s, p + 3, IsSpace);
      var b := RunEnd(s, a, IsDigit);
      var c := RunEnd(s, b, IsSpace);
      if a > p + 3 && 1 <= b - a <= 2 && c > b && ClockAt(s, c) then Some(c + 8) else None
    else None
  }

  /** `\S+\s+` at `i`: the position after the whitespace. */
  function Token(s: string, i: nat): (r: Option<nat>)
    requires i <= |s|
    ensures r.Some? ==> i < r.value <= |s|
  {
    var e := RunEnd(s, i, NotSpace);
    var w := RunEnd(s, e, IsSpace);
    if e > i && w > e then Some(w) else None
  }

  /** No line break in `s[lo..hi]`: what `.` demands. */
  predicate NoNewline(s: string, lo: nat, hi: nat)
    requires lo <= hi <= |s|
  {
    forall k :: lo <= k < hi ==> s[k] != '\n'
  }

  // ================================================================ line formats

  /** The line formats, in the order the parser tries them. */
  datatype LogType = Syslog | Auth | Apache | Nginx | Generic {
    function Name(): string {
      match this
      case Syslog => "syslog"
      case Auth => "auth"
      case Apache => "apache"
      case Nginx => "nginx"
      case Generic => "generic"
    }
  }

  /** The stamp, host and the whitespace after the host, shared by the syslog and auth
      patterns: the position where their program tag starts. */
  function StampAndHost(s: string): (r: Option<nat>)
    ensures r.Some? ==> r.value <= |s|
  {
    match SyslogStampEnd(s, 0)
    case None => None
    case Some(e) =>
      var a := RunEnd(s, e, IsSpace);
      if a > e then Token(s, a) else None
  }

  /** `(\S+):` at `b`: a colon after at least one character of the next token. */
  predicate TagColon(s: string, b: nat)
    requires b <= |s|
  {
    var t := RunEnd(s, b, NotSpace);
    exists k :: b < k < t && s[k] == ':'
  }

  /** `\[(\d+)\]:` at `j`. */
  predicate PidAt(s: string, j: nat)
    requires j <= |s|
  {
    var d := RunEnd(s, j, IsDigit);
    d > j && d + 1 < |s| && s[d] == ']' && s[d + 1] == ':'
  }

  /** `(\S+)\[(\d+)\]:` at `b`: some `[` inside the next token, after its first
      character, followed by digits and `]:`. */
  predicate TagPid(s: string, b: nat)
    requires b <= |s|
  {
    var t := RunEnd(s, b, NotSpace);
    exists k :: b < k < t && s[k] == '[' && PidAt(s, k + 1)
  }

  /** `re.match` of the syslog pattern
      `(\w{3}\s+\d{1,2}\s+\d{2}:\d{2}:\d{2})\s+(\S+)\s+(\S+):\s*(.*)`; the trailing
      `\s*(.*)` matches anything. */
  predicate SyslogFormat(s: string) {
    match StampAndHost(s)
    case None => false
    case Some(b) => TagColon(s, b)
  }

  /** `re.match` of the auth pattern
      `(\w{3}\s+\d{1,2}\s+\d{2}:\d{2}:\d{2})\s+(\S+)\s+(\S+)\[(\d+)\]:\s*(.*)`. */
  predicate AuthFormat(s: string) {
    match StampAndHost(s)
    case None => false
    case Some(b) => TagPid(s, b)
  }

  /** `\s+"(\S+)\s+(\S+)\s+\S+"\s+(\d+)\s+(\d+)` at `j`, the part of the access-log
      patterns after the closing bracket. The token before `\s+(\d+)` has to end in
      the quote, since the quote must be followed by whitespace. */
  predicate RequestTail(s: string, j: nat)
    requires j <= |s|
  {
    var a := RunEnd(s, j, IsSpace);
    a > j && a < |s| && s[a] == '"' &&
    match Token(s, a + 1)
    case None => false
    case Some(b) =>
      match Token(s, b)
      case None => false
      case Some(c) =>
        var q := RunEnd(s, c, NotSpace);
        q >= c + 2 && s[q - 1] == '"' &&
        var d := RunEnd(s, q, IsSpace);
        var e := RunEnd(s, d, IsDigit);
        var f := RunEnd(s, e, IsSpace);
        d > q && e > d && f > e && f < |s| && IsDigit(s[f])
  }

  /** `\[(.*?)\]` followed by the request tail, with `[` at `c`: the lazy group may
      stretch to any later `]` on the line that lets the rest match. */
  predicate BracketedRequest(s: string, c: nat)
    requires c <= |s|
  {
    c < |s| && s[c] == '[' &&
    exists r :: c < r < |s| && s[r] == ']' && NoNewline(s, c + 1, r) && RequestTail(s, r + 1)
  }

  /** `re.match` of the apache pattern
      `(\S+)\s+\S+\s+\S+\s+\[(.*?)\]\s+"(\S+)\s+(\S+)\s+\S+"\s+(\d+)\s+(\d+)`. */
  predicate ApacheFormat(s: string) {
    match Token(s, 0)
    case None => false
    case Some(a) =>
      match Token(s, a)
      case None => false
      case Some(b) =>
        match Token(s, b)
        case None => false
        case Some(c) => BracketedRequest(s, c)
  }

  /** `-\s+` at `a`. */
  function Dash(s: string, a: nat): (r: Option<nat>)
    requires a <= |s|
    ensures r.Some? ==> a < r.value <= |s|
  {
    if a < |s| && s[a] == '-' then
      var w := RunEnd(s, a + 1, IsSpace);
      if w > a + 1 then Some(w) else None
    else None
  }

  /** `re.match` of the nginx pattern
      `(\S+)\s+-\s+-\s+\[(.*?)\]\s+"(\S+)\s+(\S+)\s+\S+"\s+(\d+)\s+(\d+)`. */
  predicate NginxFormat(s: string) {
    match Token(s, 0)
    case None => false
    case Some(a) =>
      match Dash(s, a)
      case None => false
      case Some(b) =>
        match Dash(s, b)
        case None => false
        case Some(c) => BracketedRequest(s, c)
  }

  /** The format decision of `_parse_single_log`: the first of syslog, auth, apache,
      nginx whose pattern matches at the start of the line, `Generic` when none does. */
  function LogTypeOf(line: string): LogType {
    if SyslogFormat(line) then Syslog
    else if AuthFormat(line) then Auth
    else if ApacheFormat(line) then Apache
    else if NginxFormat(line) then Nginx
    else Generic
  }

  /** A token holding `[pid]:` also holds a colon after its first character. */
  lemma TagPidHasColon(s: string, b: nat)
    requires b <= |s| && TagPid(s, b)
    ensures TagColon(s, b)
  {
    var t := RunEnd(s, b, NotSpace);
    var k :| b < k < t && s[k] == '[' && PidAt(s, k + 1);
    var m := PidColon(s, b, k);
  }

  /** The colon after `[pid]` at `k + 1` lies in the same token as `k`. */
  lemma PidColon(s: string, b: nat, k: nat) returns (m: nat)
    requires b < k < |s| && k < RunEnd(s, b, NotSpace) && PidAt(s, k + 1)
    ensures b < m < RunEnd(s, b, NotSpace) && s[m] == ':'
  {
    var d := RunEnd(s, k + 1, IsDigit);
    PidAtClose(s, k + 1);
    PidNotSpace(s, k + 1, d);
    RunPast(s, b, k, d + 2, NotSpace);
    m := d + 1;
  }

  /** A run that reaches past `k` and continues to `j` ends at `j` or later. */
  lemma RunPast(s: string, b: nat, k: nat, j: nat, p: char -> bool)
    requires b <= k < j <= |s| && k < RunEnd(s, b, p)
    requires forall m :: k < m < j ==> p(s[m])
    ensures RunEnd(s, b, p) >= j
  {
    RunEndSkip(s, b, k + 1, p);
    RunEndSkip(s, k + 1, j, p);
  }

  lemma PidAtClose(s: string, j: nat)
    requires j <= |s| && PidAt(s, j)
    ensures RunEnd(s, j, IsDigit) + 1 < |s|
    ensures s[RunEnd(s, j, IsDigit)] == ']' && s[RunEnd(s, j, IsDigit) + 1] == ':'
  {
  }

  /** Digits followed by `]:` hold no whitespace. */
  lemma PidNotSpace(s: string, i: nat, d: nat)
    requires i <= d && d + 1 < |s| && s[d] == ']' && s[d + 1] == ':'
    requires forall m :: i <= m < d ==> IsDigit(s[m])
    ensures forall m :: i <= m < d + 2 ==> NotSpace(s[m])
  {
    assert NotSpace(']') && NotSpace(':');
  }

  /** Every line the auth pattern matches is also matched by the syslog pattern, which
      is tried first: the tag `sshd[42]` followed by `:` is itself a token with a colon. */
  lemma AuthImpliesSyslog(s: string)
    requires AuthFormat(s)
    ensures SyslogFormat(s)
  {
    TagPidHasColon(s, StampAndHost(s).value);
  }

  /** `-\s+` is also an `\S+\s+` token. */
  lemma DashIsToken(s: string, a: nat)
    requires a <= |s| && Dash(s, a).Some?
    ensures Token(s, a) == Dash(s, a)
  {
    assert RunEnd(s, a + 1, NotSpace) == a + 1;
    assert RunEnd(s, a, NotSpace) == a + 1;
  }

  /** Every line the nginx pattern matches is also matched by the apache pattern, which
      is tried first: an apache token may be the single character `-`. */
  lemma NginxImpliesApache(s: string)
    requires NginxFormat(s)
    ensures ApacheFormat(s)
  {
    var a := Token(s, 0).value;
    DashIsToken(s, a);
    DashIsToken(s, Dash(s, a).value);
  }

  /** So `log_type` is only ever syslog, apache or generic. */
  lemma LogTypeNeverAuthOrNginx(line: string)
    ensures LogTypeOf(line) in {Syslog, Apache, Generic}
  {
    if AuthFormat(line) { AuthImpliesSyslog(line); }
    if NginxFormat(line) { NginxImpliesApache(line); }
  }

  // ================================================================ timestamp

  /** `(\w{3}\s+\d{1,2}\s+\d{2}:\d{2}:\d{2})`, group = the whole match. */
  function SyslogStampAt(s: string, p: nat): (r: Option<Match>)
    ensures r.Some? ==> p == r.value.groupStart < r.value.groupEnd == r.value.end <= |s|
  {
    match SyslogStampEnd(s, p)
    case None => None
    case Some(e) => Some(Match(p, e, e))
  }

  /** `(\d{4}-\d{2}-\d{2}\s+\d{2}:\d{2}:\d{2})`, group = the whole match. */
  function IsoStampAt(s: string, p: nat): (r: Option<Match>)
    ensures r.Some? ==> p == r.value.groupStart < r.value.groupEnd == r.value.end <= |s|
  {
    if p + 10 <= |s| && IsDigit(s[p]) && IsDigit(s[p + 1]) && IsDigit(s[p + 2]) && IsDigit(s[p + 3])
      && s[p + 4] == '-' && IsDigit(s[p + 5]) && IsDigit(s[p + 6])
      && s[p + 7] == '-' && IsDigit(s[p + 8]) && IsDigit(s[p + 9])
    then
      var a := RunEnd(s, p + 10, IsSpace);
      if a > p + 10 && ClockAt(s, a) then Some(Match(p, a + 8, a + 8)) else None
    else None
  }

  /** `\[(\d{2}/\w{3}/\d{4}:\d{2}:\d{2}:\d{2})`, group = all but the bracket. */
  function BracketStampAt(s: string, p: nat): (r: Option<Match>)
    ensures r.Some? ==> p + 1 == r.value.groupStart < r.value.groupEnd == r.value.end <= |s|
  {
    var g := p + 1;
    if p + 21 <= |s| && s[p] == '[' && IsDigit(s[g]) && IsDigit(s[g + 1]) && s[g + 2] == '/'
      && IsWordChar(s[g + 3]) && IsWordChar(s[g + 4]) && IsWordChar(s[g + 5]) && s[g + 6] == '/'
      && IsDigit(s[g + 7]) && IsDigit(s[g + 8]) && IsDigit(s[g + 9]) && IsDigit(s[g + 10])
      && s[g + 11] == ':' && ClockAt(s, g + 12)
    then Some(Match(g, g + 20, g + 20))
    else None
  }

  const TimestampPatterns: seq<WfMatcher> := [SyslogStampAt, IsoStampAt, BracketStampAt]

  /** The wall clock the parser falls back on, injected by the caller. */
  type Month = m: int | 1 <= m <= 12 witness 1
  type Day = d: int | 1 <= d <= 31 witness 1
  type Hour = h: int | 0 <= h <= 23
  type Sixty = m: int | 0 <= m <= 59

  datatype Clock = Clock(month: Month, day: Day, hour: Hour, minute: Sixty, second: Sixty)

  const MonthNames: seq<string> :=
    ["Jan", "Feb", "Mar", "Apr", "May", "Jun", "Jul", "Aug", "Sep", "Oct", "Nov", "Dec"]

  /** The two decimal digits of a number below 100, as `%d`, `%H`, `%M` and `%S` print it. */
  function Tens(n: nat): (c: char)
    requires n < 100
    ensures IsDigit(c)
  {
    ('0' as int + n / 10) as char
  }

  function Units(n: nat): (c: char)
    requires n < 100
    ensures IsDigit(c)
  {
    ('0' as int + n % 10) as char
  }

  /** `now.strftime('%b %d %H:%M:%S')` in the C locale. */
  function ClockStamp(now: Clock): (r: string)
    ensures |r| == 15
  {
    MonthNames[now.month - 1]
      + [' ', Tens(now.day), Units(now.day), ' ', Tens(now.hour), Units(now.hour), ':',
         Tens(now.minute), Units(now.minute), ':', Tens(now.second), Units(now.second)]
  }

  /** The synthesised timestamp has the shape of the first timestamp pattern. */
  lemma ClockStampIsSyslogShaped(now: Clock)
    ensures SyslogStampAt(ClockStamp(now), 0) == Some(Match(0, 15, 15))
  {
    var r := ClockStamp(now);
    var m := MonthNames[now.month - 1];
    assert |m| == 3 && IsWordChar(m[0]) && IsWordChar(m[1]) && IsWordChar(m[2]);
    assert r[0] == m[0] && r[1] == m[1] && r[2] == m[2];
    SyslogShaped(r);
  }

  /** A 15-character text laid out as `Mmm DD HH:MM:SS` is a syslog timestamp. */
  lemma SyslogShaped(r: string)
    requires |r| == 15 && IsWordChar(r[0]) && IsWordChar(r[1]) && IsWordChar(r[2])
    requires r[3] == ' ' && IsDigit(r[4]) && IsDigit(r[5]) && r[6] == ' ' && ClockAt(r, 7)
    ensures SyslogStampAt(r, 0) == Some(Match(0, 15, 15))
  {
    assert RunEnd(r, 3, IsSpace) == 4 by { assert RunEnd(r, 4, IsSpace) == 4; }
    assert RunEnd(r, 4, IsDigit) == 6 by { assert RunEnd(r, 6, IsDigit) == 6; }
    assert RunEnd(r, 6, IsSpace) == 7 by { assert RunEnd(r, 7, IsSpace) == 7; }
  }

  /** `_extract_timestamp`: the group of the first of the three timestamp patterns that
      occurs anywhere in the line, else the injected clock. */
  function ExtractTimestamp(line: string, now: Clock): (r: string)
    ensures FirstCapture(line, TimestampPatterns).None? ==> r == ClockStamp(now)
    ensures FirstCapture(line, TimestampPatterns).Some? ==> r == FirstCapture(line, TimestampPatterns).value
    ensures r == ClockStamp(now) || Contains(line, r)
  {
    FirstCaptureContained(line, TimestampPatterns);
    match FirstCapture(line, TimestampPatterns)
    case Some(t) => t
    case None => ClockStamp(now)
  }

  // ================================================================ source IP

  /** `\d{1,3}\.` at `i`: the position after the dot. */
  function DottedGroup(s: string, i: nat): (r: Option<nat>)
    requires i <= |s|
    ensures r.Some? ==> i + 2 <= r.value <= i + 4 && r.value <= |s| && s[r.value - 1] == '.' && AllDigits(s[i..r.value - 1])
  {
    var e := RunEnd(s, i, IsDigit);
    if 1 <= e - i <= 3 && e < |s| && s[e] == '.' then Some(e + 1) else None
  }

  /** `\b(?:\d{1,3}\.){3}\d{1,3}\b` at `p`. Both word boundaries sit next to a digit, so
      the match must start after a non-word character and end before one, and each
      `\d{1,3}` must take its whole run of digits. */
  function Ipv4At(s: string, p: nat): (r: Option<Match>)
    ensures r.Some? ==> p == r.value.groupStart < r.value.groupEnd == r.value.end <= |s|
  {
    if p < |s| && IsDigit(s[p]) && (p == 0 || !IsWordChar(s[p - 1])) then
      match DottedGroup(s, p)
      case None => None
      case Some(a) =>
        match DottedGroup(s, a)
        case None => None
        case Some(b) =>
          match DottedGroup(s, b)
          case None => None
          case Some(c) =>
            var e := RunEnd(s, c, IsDigit);
            if 1 <= e - c <= 3 && (e == |s| || !IsWordChar(s[e])) then Some(Match(p, e, e)) else None
    else None
  }

  /** A dotted quad: four dot-separated groups of one to three digits, with no check
      that a group is at most 255. */
  predicate IsIpv4Shape(r: string) {
    var parts := Split(r, '.');
    |parts| == 4 && forall k :: 0 <= k < 4 ==> 1 <= |parts[k]| <= 3 && AllDigits(parts[k])
  }

  lemma DigitsHaveNoDot(g: string)
    requires AllDigits(g)
    ensures '.' !in g
  {
  }

  /** Four groups of one to three digits joined by dots form a dotted quad. */
  lemma DottedQuad(g1: string, g2: string, g3: string, g4: string)
    requires 1 <= |g1| <= 3 && 1 <= |g2| <= 3 && 1 <= |g3| <= 3 && 1 <= |g4| <= 3
    requires AllDigits(g1) && AllDigits(g2) && AllDigits(g3) && AllDigits(g4)
    ensures IsIpv4Shape(g1 + ['.'] + (g2 + ['.'] + (g3 + ['.'] + g4)))
  {
    DigitsHaveNoDot(g1);
    DigitsHaveNoDot(g2);
    DigitsHaveNoDot(g3);
    DigitsHaveNoDot(g4);
    var parts := [g1, g2, g3, g4];
    assert Join([g3, g4], '.') == g3 + ['.'] + g4 by { assert [g3, g4][1..] == [g4]; }
    assert Join([g2, g3, g4], '.') == g2 + ['.'] + (g3 + ['.'] + g4) by { assert [g2, g3, g4][1..] == [g3, g4]; }
    assert Join(parts, '.') == g1 + ['.'] + (g2 + ['.'] + (g3 + ['.'] + g4)) by { assert parts[1..] == [g2, g3, g4]; }
    assert forall k :: 0 <= k < 4 ==> '.' !in parts[k] by {
      assert parts[0] == g1 && parts[1] == g2 && parts[2] == g3 && parts[3] == g4;
    }
    SplitJoin(parts, '.');
    QuadGroups(parts);
  }

  lemma QuadGroups(parts: seq<string>)
    requires |parts| == 4
    requires 1 <= |parts[0]| <= 3 && 1 <= |parts[1]| <= 3 && 1 <= |parts[2]| <= 3 && 1 <= |parts[3]| <= 3
    requires AllDigits(parts[0]) && AllDigits(parts[1]) && AllDigits(parts[2]) && AllDigits(parts[3])
    ensures forall k :: 0 <= k < 4 ==> 1 <= |parts[k]| <= 3 && AllDigits(parts[k])
  {
    forall k | 0 <= k < 4 ensures 1 <= |parts[k]| <= 3 && AllDigits(parts[k]) {
      if k == 0 {} else if k == 1 {} else if k == 2 {} else {}
    }
  }

  /** The text between `p` and `e` with dots before `a`, `b` and `c` and one to three
      digits between them is a dotted quad. */
  lemma QuadSlices(s: string, p: nat, a: nat, b: nat, c: nat, e: nat)
    requires p + 2 <= a <= p + 4 && a + 2 <= b <= a + 4 && b + 2 <= c <= b + 4 && c + 1 <= e <= c + 3 && e <= |s|
    requires s[a - 1] == '.' && s[b - 1] == '.' && s[c - 1] == '.'
    requires AllDigits(s[p..a - 1]) && AllDigits(s[a..b - 1]) && AllDigits(s[b..c - 1]) && AllDigits(s[c..e])
    ensures IsIpv4Shape(s[p..e])
  {
    var g1, g2, g3, g4 := s[p..a - 1], s[a..b - 1], s[b..c - 1], s[c..e];
    SlicePivot(s, b, c - 1, e);
    var t3 := s[b..e];
    assert t3 == g3 + ['.'] + g4;
    SlicePivot(s, a, b - 1, e);
    var t2 := s[a..e];
    assert t2 == g2 + ['.'] + t3;
    SlicePivot(s, p, a - 1, e);
    assert s[p..e] == g1 + ['.'] + t2;
    DottedQuad(g1, g2, g3, g4);
  }

  lemma Ipv4MatchHasShape(s: string, p: nat)
    requires Ipv4At(s, p).Some?
    ensures IsIpv4Shape(s[p..Ipv4At(s, p).value.end])
  {
    var a := DottedGroup(s, p).value;
    var b := DottedGroup(s, a).value;
    var c := DottedGroup(s, b).value;
    var e := Ipv4At(s, p).value.end;
    assert AllDigits(s[c..e]) by { assert forall k :: 0 <= k < e - c ==> s[c..e][k] == s[c + k]; }
    QuadSlices(s, p, a, b, c, e);
  }

  /** `_extract_ip`: the first dotted quad in the line, or `unknown`. */
  function ExtractIp(line: string): (r: string)
    ensures r == "unknown" <==> forall q :: 0 <= q <= |line| ==> Ipv4At(line, q).None?
    ensures r != "unknown" ==> IsIpv4Shape(r) && Contains(line, r)
    ensures r != "unknown" ==>
      exists p :: (0 <= p <= |line| && Ipv4At(line, p).Some? &&
        r == line[p..Ipv4At(line, p).value.end] && forall q :: 0 <= q < p ==> Ipv4At(line, q).None?)
  {
    match Search(line, 0, Ipv4At)
    case None => "unknown"
    case Some((p, m)) =>
      Ipv4MatchHasShape(line, p);
      var r := line[p..m.end];
      SliceContained(line, p, m.end);
      assert r != "unknown" by { assert IsDigit(r[0]); }
      assert Ipv4At(line, p).Some? && r == line[p..Ipv4At(line, p).value.end];
      r
  }

  // ================================================================ user

  /** `kw\s+(\w+)` at `p`, case-insensitively; the group is the whole run of word
      characters after the whitespace. */
  function KeywordWordAt(kw: string, s: string, p: nat): (r: Option<Match>)
    ensures r.Some? ==>
      p < r.value.groupStart < r.value.groupEnd == r.value.end <= |s| && AllWordChars(s[r.value.groupStart..r.value.groupEnd])
  {
    if KeywordAt(s, p, kw) then
      var a := RunEnd(s, p + |kw|, IsSpace);
      var b := RunEnd(s, a, IsWordChar);
      if a > p + |kw| && b > a then Some(Match(a, b, b)) else None
    else None
  }

  const UserPatterns: seq<WfMatcher> := [
    (s: string, p: nat) => KeywordWordAt("user", s, p),
    (s: string, p: nat) => KeywordWordAt("for", s, p),
    (s: string, p: nat) => KeywordWordAt("from", s, p)]

  /** What `\w+` captures: a non-empty run of word characters. */
  predicate IsWord(t: string) { |t| > 0 && AllWordChars(t) }

  /** The user patterns capture only words. */
  lemma UserPatternsCaptureWords(s: string)
    ensures forall k :: 0 <= k < |UserPatterns| ==> GroupsSatisfy(s, UserPatterns[k], IsWord)
  {
    KeywordWordsAreWords("user", s);
    KeywordWordsAreWords("for", s);
    KeywordWordsAreWords("from", s);
    assert GroupsSatisfy(s, UserPatterns[0], IsWord);
    assert GroupsSatisfy(s, UserPatterns[1], IsWord);
    assert GroupsSatisfy(s, UserPatterns[2], IsWord);
  }

  lemma KeywordWordsAreWords(kw: string, s: string)
    ensures forall q: nat :: q <= |s| && KeywordWordAt(kw, s, q).Some? ==> IsWord(Group(s, KeywordWordAt(kw, s, q).value))
  {
  }

  /** `_extract_user`: the word after the first of `user`, `for`, `from` (tried in that
      order, each over the whole line) that is followed by whitespace and a word, or
      `unknown` when none is. */
  function ExtractUser(line: string): (r: string)
    ensures IsWord(r)
    ensures FirstCapture(line, UserPatterns).None? ==> r == "unknown"
    ensures FirstCapture(line, UserPatterns).Some? ==> r == FirstCapture(line, UserPatterns).value && Contains(line, r)
  {
    UserPatternsCaptureWords(line);
    FirstCaptureGroups(line, UserPatterns, IsWord);
    FirstCaptureContained(line, UserPatterns);
    match FirstCapture(line, UserPatterns)
    case None => "unknown"
    case Some(u) => u
  }

  // ================================================================ command

  /** The end of the line that contains position `x`. */
  function LineEnd(s: string, x: nat): (e: nat)
    requires x <= |s|
    ensures x <= e <= |s| && NoNewline(s, x, e) && (e == |s| || s[e] == '\n')
  {
    RunEnd(s, x, c => c != '\n')
  }

  /** `COMMAND=(.+)` at `p`, case-insensitively. */
  function CommandAssignAt(s: string, p: nat): (r: Option<Match>)
    ensures r.Some? ==> p < r.value.groupStart < r.value.groupEnd == r.value.end <= |s|
  {
    var x := p + 8;
    if KeywordAt(s, p, "command=") && x < |s| && s[x] != '\n' then
      var e := LineEnd(s, x);
      Some(Match(x, e, e))
    else None
  }

  /** The start of `(.+)` after the whitespace `s[lo..w]`: greedy `\s+` gives back
      whitespace until `.+` can take a character that is not a line break. */
  function RestStart(s: string, lo: nat, x: nat): (r: Option<nat>)
    requires lo < x <= |s|
    ensures r.Some? ==> lo < r.value <= x && r.value < |s| && s[r.value] != '\n'
    decreases x
  {
    if x < |s| && s[x] != '\n' then Some(x)
    else if x - 1 > lo then RestStart(s, lo, x - 1)
    else None
  }

  /** `kw\s+(.+)` at `p`, case-insensitively. */
  function KeywordRestAt(kw: string, s: string, p: nat): (r: Option<Match>)
    ensures r.Some? ==> p < r.value.groupStart < r.value.groupEnd == r.value.end <= |s|
  {
    if KeywordAt(s, p, kw) then
      var lo := p + |kw|;
      var w := RunEnd(s, lo, IsSpace);
      if w > lo then
        match RestStart(s, lo, w)
        case None => None
        case Some(x) =>
          var e := LineEnd(s, x);
          Some(Match(x, e, e))
      else None
    else None
  }

  const CommandPatterns: seq<WfMatcher> := [
    CommandAssignAt,
    (s: string, p: nat) => KeywordRestAt("executed", s, p),
    (s: string, p: nat) => KeywordRestAt("running", s, p)]

  /** `_extract_command`: the stripped rest of the line after the first of `COMMAND=`,
      `executed`, `running` that matches, or `none`. */
  function ExtractCommand(line: string): (r: string)
    ensures FirstCapture(line, CommandPatterns).None? ==> r == "none"
    ensures FirstCapture(line, CommandPatterns).Some? ==>
      r == Strip(FirstCapture(line, CommandPatterns).value) && Contains(line, r)
    ensures r == [] || (!IsSpace(r[0]) && !IsSpace(r[|r| - 1]))
  {
    FirstCaptureContained(line, CommandPatterns);
    match FirstCapture(line, CommandPatterns)
    case None => "none"
    case Some(c) => StripContained(line, c); Strip(c)
  }

  // ================================================================ threat indicators

  /** One cue of the indicator table: a literal, or `first.*second`. */
  datatype Cue = Lit(kw: string) | Gap(first: string, second: string)

  /** `re.search(cue, line, re.IGNORECASE)` succeeds. */
  predicate CueMatches(c: Cue, s: string) {
    match c
    case Lit(kw) => exists i :: 0 <= i <= |s| && KeywordAt(s, i, kw)
    case Gap(a, b) =>
      exists i, j :: 0 <= i <= |s| && i + |a| <= j <= |s| && KeywordAt(s, i, a) && KeywordAt(s, j, b)
        && NoNewline(s, i + |a|, j)
  }

  /** The `threat_indicators` table, keywords written in lower case since every cue is
      searched case-insensitively. */
  const ThreatIndicators: seq<(string, seq<Cue>)> := [
    ("brute_force", [Lit("failed password"), Lit("authentication failure"), Lit("invalid user")]),
    ("privilege_escalation", [Lit("sudo"), Lit("su:"), Lit("command=")]),
    ("network_scan", [Gap("port", "scan"), Lit("nmap"), Lit("masscan")]),
    ("malware", [Lit("virus"), Lit("malware"), Lit("trojan"), Lit("backdoor")]),
    ("dos_attack", [Gap("connection", "refused"), Lit("too many connections"), Lit("rate limit")]),
    ("file_access", [Lit("permission denied"), Lit("access denied"), Lit("unauthorized")])
  ]

  const IndicatorCategories: set<string> :=
    {"brute_force", "privilege_escalation", "network_scan", "malware", "dos_attack", "file_access"}

  /** How many cues of `cues` match. */
  function CueHits(cues: seq<Cue>, s: string): (n: nat)
    ensures n <= |cues|
    ensures n == 0 <==> forall k :: 0 <= k < |cues| ==> !CueMatches(cues[k], s)
  {
    if cues == [] then 0
    else CueHits(cues[..|cues| - 1], s) + (if CueMatches(cues[|cues| - 1], s) then 1 else 0)
  }

  /** How many cues of the whole table match. */
  function TotalHits(table: seq<(string, seq<Cue>)>, s: string): nat {
    if table == [] then 0
    else TotalHits(table[..|table| - 1], s) + CueHits(table[|table| - 1].1, s)
  }

  /** The categories of the table with at least one matching cue. */
  function HitCategories(table: seq<(string, seq<Cue>)>, s: string): set<string> {
    if table == [] then {}
    else
      var last := table[|table| - 1];
      HitCategories(table[..|table| - 1], s) + (if CueHits(last.1, s) > 0 then {last.0} else {})
  }

  /** The number of cues in the table. */
  function CueTotal(table: seq<(string, seq<Cue>)>): nat {
    if table == [] then 0 else CueTotal(table[..|table| - 1]) + |table[|table| - 1].1|
  }

  datatype ThreatHits = ThreatHits(count: nat, types: set<string>)

  /** What `_count_threat_indicators` returns for a line. */
  function Indicators(line: string): ThreatHits {
    ThreatHits(TotalHits(ThreatIndicators, line), HitCategories(ThreatIndicators, line))
  }

  /** A category is reported exactly when one of its cues matches. */
  lemma {:induction false} HitCategoriesExact(table: seq<(string, seq<Cue>)>, s: string, name: string)
    ensures name in HitCategories(table, s) <==>
      exists j, k :: 0 <= j < |table| && table[j].0 == name && 0 <= k < |table[j].1| && CueMatches(table[j].1[k], s)
  {
    if table != [] {
      var init := table[..|table| - 1];
      HitCategoriesExact(init, s, name);
      var last := table[|table| - 1];
      if name in HitCategories(table, s) && name !in HitCategories(init, s) {
        var k :| 0 <= k < |last.1| && CueMatches(last.1[k], s);
        assert table[|table| - 1].0 == name && CueMatches(table[|table| - 1].1[k], s);
      }
      if exists j, k :: 0 <= j < |table| && table[j].0 == name && 0 <= k < |table[j].1| && CueMatches(table[j].1[k], s) {
        var j, k :| 0 <= j < |table| && table[j].0 == name && 0 <= k < |table[j].1| && CueMatches(table[j].1[k], s);
        if j < |table| - 1 { assert init[j] == table[j]; }
      }
    }
  }

  /** The counts of `_count_threat_indicators` are consistent: at most one hit per cue,
      categories drawn from the table, no more categories than hits, and no hit exactly
      when no category. */
  lemma {:induction false} HitsConsistent(table: seq<(string, seq<Cue>)>, s: string)
    ensures TotalHits(table, s) <= CueTotal(table)
    ensures |HitCategories(table, s)| <= TotalHits(table, s)
    ensures TotalHits(table, s) == 0 <==> HitCategories(table, s) == {}
    ensures forall c :: c in HitCategories(table, s) ==> exists j :: 0 <= j < |table| && table[j].0 == c
  {
    if table != [] {
      var init := table[..|table| - 1];
      HitsConsistent(init, s);
      forall c | c in HitCategories(init, s) ensures exists j :: 0 <= j < |table| && table[j].0 == c {
        var j :| 0 <= j < |init| && init[j].0 == c;
        assert table[j].0 == c;
      }
    }
  }

  /** The table holds nineteen cues. */
  lemma NineteenCues()
    ensures CueTotal(ThreatIndicators) == 19
  {
    var t := ThreatIndicators;
    assert t[..5][..4][..3][..2][..1][..0] == [];
    assert CueTotal(t[..1]) == 3 by { assert t[..1][..0] == []; }
    assert CueTotal(t[..2]) == 6 by { assert t[..2][..1] == t[..1]; }
    assert CueTotal(t[..3]) == 9 by { assert t[..3][..2] == t[..2]; }
    assert CueTotal(t[..4]) == 13 by { assert t[..4][..3] == t[..3]; }
    assert CueTotal(t[..5]) == 16 by { assert t[..5][..4] == t[..4]; }
    assert t[..6][..5] == t[..5] && t[..6] == t;
  }

  /** The category names of the table are the six categories. */
  lemma CategoryNames()
    ensures forall j :: 0 <= j < |ThreatIndicators| ==> ThreatIndicators[j].0 in IndicatorCategories
  {
  }

  lemma IndicatorsConsistent(line: string)
    ensures Indicators(line).count <= 19
    ensures Indicators(line).types <= IndicatorCategories
    ensures |Indicators(line).types| <= Indicators(line).count
    ensures Indicators(line).count == 0 <==> Indicators(line).types == {}
  {
    HitsConsistent(ThreatIndicators, line);
    NineteenCues();
    CategoryNames();
  }

  /** `_count_threat_indicators`: every cue of every category is tried in turn; each
      match adds one to the count and the category to the list, which is then made a set. */
  method CountThreatIndicators(line: string) returns (hits: ThreatHits)
    ensures hits == Indicators(line)
    ensures hits.count <= 19 && hits.types <= IndicatorCategories && |hits.types| <= hits.count
  {
    hits := CountHits(ThreatIndicators, line);
    IndicatorsConsistent(line);
  }

  /** The two loops of `_count_threat_indicators` over any table. */
  method CountHits(table: seq<(string, seq<Cue>)>, line: string) returns (hits: ThreatHits)
    ensures hits == ThreatHits(TotalHits(table, line), HitCategories(table, line))
  {
    var count := 0;
    var types: seq<string> := [];
    for j := 0 to |table|
      invariant count == TotalHits(table[..j], line)
      invariant Elements(types) == HitCategories(table[..j], line)
    {
      var (name, cues) := table[j];
      ghost var before := types;
      for k := 0 to |cues|
        invariant count == TotalHits(table[..j], line) + CueHits(cues[..k], line)
        invariant Elements(types) == Elements(before) + (if CueHits(cues[..k], line) > 0 then {name} else {})
      {
        assert cues[..k + 1][..k] == cues[..k];
        if CueMatches(cues[k], line) {
          count := count + 1;
          ElementsSnoc(types, name);
          types := types + [name];
        }
      }
      assert cues[..|cues|] == cues;
      assert table[..j + 1][..j] == table[..j];
    }
    assert table[..|table|] == table;
    hits := ThreatHits(count, Elements(types));
  }

  /** The set of the elements of a list, as `set(types)`. */
  function Elements(xs: seq<string>): (r: set<string>)
    ensures forall x :: x in r <==> x in xs
  {
    set x | x in xs
  }

  lemma ElementsSnoc(xs: seq<string>, x: string)
    ensures Elements(xs + [x]) == Elements(xs) + {x}
  {
  }

  // ================================================================ lexical stats

  /** `\d+` at `p`. */
  function DigitsAt(s: string, p: nat): (r: Option<Match>)
    ensures r.Some? ==> p == r.value.groupStart < r.value.groupEnd == r.value.end <= |s|
    ensures r.Some? <==> p < |s| && IsDigit(s[p])
  {
    if p < |s| && IsDigit(s[p]) then
      var e := RunEnd(s, p, IsDigit);
      Some(Match(p, e, e))
    else None
  }

  /** The class `[!@#$%^&*()_+\-=\[\]{};\':"\\|,.<>\?]`. */
  predicate IsSpecialChar(c: char) {
    c in {'!', '@', '#', '$', '%', '^', '&', '*', '(', ')', '_', '+', '-', '=', '[', ']', '{', '}',
          ';', '\'', ':', '"', '\\', '|', ',', '.', '<', '>', '?'}
  }

  function SpecialAt(s: string, p: nat): (r: Option<Match>)
    ensures r.Some? ==> p == r.value.groupStart < r.value.groupEnd == r.value.end <= |s|
    ensures r.Some? <==> p < |s| && IsSpecialChar(s[p])
  {
    if p < |s| && IsSpecialChar(s[p]) then Some(Match(p, p + 1, p + 1)) else None
  }

  // ================================================================ records

  datatype LogRecord = LogRecord(
    rawLog: string,
    logType: LogType,
    timestamp: string,
    sourceIp: string,
    user: string,
    command: string,
    threatIndicators: ThreatHits,
    logLength: nat,
    hasNumbers: nat,
    hasSpecialChars: nat,
    wordCount: nat)

  /** `1 if re.search(r'\d+', line) else 0`. */
  function HasNumbers(line: string): (r: nat)
    ensures r in {0, 1} && (r == 1 <==> exists i :: 0 <= i < |line| && IsDigit(line[i]))
  {
    assert Search(line, 0, DigitsAt).None? ==> forall i :: 0 <= i < |line| ==> !IsDigit(line[i]) by {
      if Search(line, 0, DigitsAt).None? {
        forall i | 0 <= i < |line| ensures !IsDigit(line[i]) { assert DigitsAt(line, i).None?; }
      }
    }
    if Search(line, 0, DigitsAt).Some? then 1 else 0
  }

  /** `1 if re.search(<special class>, line) else 0`. */
  function HasSpecialChars(line: string): (r: nat)
    ensures r in {0, 1} && (r == 1 <==> exists i :: 0 <= i < |line| && IsSpecialChar(line[i]))
  {
    assert Search(line, 0, SpecialAt).None? ==> forall i :: 0 <= i < |line| ==> !IsSpecialChar(line[i]) by {
      if Search(line, 0, SpecialAt).None? {
        forall i | 0 <= i < |line| ensures !IsSpecialChar(line[i]) { assert SpecialAt(line, i).None?; }
      }
    }
    if Search(line, 0, SpecialAt).Some? then 1 else 0
  }

  /** `len(line.split())`. */
  function WordCount(line: string): (r: nat)
    ensures r == RunCount(line, 0, false)
  {
    WordCountIsRunCount(line);
    |Words(line)|
  }

  /** `_extract_features` of the parser: the record of one line. */
  function ExtractRecord(line: string, logType: LogType, now: Clock): (r: LogRecord)
    ensures r.rawLog == line && r.logType == logType && r.logLength == |line|
    ensures r.timestamp == ExtractTimestamp(line, now) && r.sourceIp == ExtractIp(line)
    ensures r.user == ExtractUser(line) && r.command == ExtractCommand(line)
    ensures r.threatIndicators == Indicators(line)
    ensures r.hasNumbers == HasNumbers(line) && r.hasSpecialChars == HasSpecialChars(line)
    ensures r.wordCount == WordCount(line)
    ensures r.sourceIp == "unknown" || IsIpv4Shape(r.sourceIp)
    ensures IsWord(r.user)
    ensures r.threatIndicators.count <= 19 && r.threatIndicators.types <= IndicatorCategories
  {
    IndicatorsConsistent(line);
    LogRecord(
      line, logType, ExtractTimestamp(line, now), ExtractIp(line), ExtractUser(line),
      ExtractCommand(line), Indicators(line), |line|, HasNumbers(line), HasSpecialChars(line),
      WordCount(line))
  }

  /** `_parse_single_log`: the record of a line, tagged with its first matching format. */
  function ParseSingleLog(line: string, now: Clock): (r: LogRecord)
    ensures r.rawLog == line && r.logType == LogTypeOf(line)
    ensures r.logType in {Syslog, Apache, Generic}
  {
    LogTypeNeverAuthOrNginx(line);
    ExtractRecord(line, LogTypeOf(line), now)
  }

  // ================================================================ parse_logs

  /** The lines of `text.strip().split('\n')` that are not blank. */
  function NonBlankLines(text: string): seq<string> {
    KeepNonBlank(Split(Strip(text), '\n'))
  }

  /** A line that is not blank once stripped. */
  predicate NotBlank(l: string) { Strip(l) != [] }

  function KeepNonBlank(lines: seq<string>): (r: seq<string>)
    ensures |r| <= |lines|
    ensures forall k :: 0 <= k < |r| ==> Strip(r[k]) != []
  {
    Filter(lines, NotBlank)
  }

  /** Nothing is dropped and nothing is invented: a line is kept exactly when it is not
      blank, and the kept lines come in their original order. */
  lemma KeepNonBlankExact(lines: seq<string>, l: string)
    ensures l in KeepNonBlank(lines) <==> l in lines && Strip(l) != []
  {
    FilterExact(lines, l, NotBlank);
  }

  lemma KeepNonBlankOrder(lines: seq<string>, i: nat, j: nat)
    requires i < j < |lines| && Strip(lines[i]) != [] && Strip(lines[j]) != []
    ensures exists a, b ::
      0 <= a < b < |KeepNonBlank(lines)| && KeepNonBlank(lines)[a] == lines[i] && KeepNonBlank(lines)[b] == lines[j]
  {
    var a, b := FilterPositions(lines, i, j, NotBlank);
    assert KeepNonBlank(lines) == Filter(lines, NotBlank);
  }

  /** Whitespace-only text gives no records. */
  lemma BlankTextHasNoLines(text: string)
    requires AllSpace(text)
    ensures NonBlankLines(text) == []
  {
    assert Strip(text) == [];
    assert Split([], '\n') == [[]];
    var lines: seq<string> := [[]];
    assert !NotBlank(lines[0]) && lines[..0] == [];
    FilterStep(lines, 0, NotBlank);
    assert lines[..1] == lines;
  }

  lemma KeepNonBlankStep(lines: seq<string>, i: nat)
    requires i < |lines|
    ensures Strip(lines[i]) == [] ==> KeepNonBlank(lines[..i + 1]) == KeepNonBlank(lines[..i])
    ensures Strip(lines[i]) != [] ==> KeepNonBlank(lines[..i + 1]) == KeepNonBlank(lines[..i]) + [lines[i]]
  {
    FilterStep(lines, i, NotBlank);
  }

  /** `_parse_single_log` at a fixed clock, as a function value. */
  function Parser(now: Clock): string -> LogRecord {
    (l: string) => ParseSingleLog(l, now)
  }

  /** The loop of `parse_logs`: `f` applied to each line that is not blank, in order. */
  method MapNonBlank<B>(lines: seq<string>, f: string -> B) returns (out: seq<B>)
    ensures out == Map(KeepNonBlank(lines), f)
  {
    out := [];
    for i := 0 to |lines|
      invariant out == Map(KeepNonBlank(lines[..i]), f)
    {
      KeepNonBlankStep(lines, i);
      var line := lines[i];
      if Strip(line) == [] {
        continue;
      }
      MapSnoc(KeepNonBlank(lines[..i]), line, f);
      out := out + [f(line)];
    }
    assert lines[..|lines|] == lines;
  }

  /** `parse_logs`: one record per non-blank line of the stripped text, in order. */
  method ParseLogs(text: string, now: Clock) returns (logs: seq<LogRecord>)
    ensures logs == Map(NonBlankLines(text), Parser(now))
  {
    logs := MapNonBlank(Split(Strip(text), '\n'), Parser(now));
  }

  /** The records are one per non-blank line, in order. */
  lemma ParsedLines(text: string, now: Clock)
    ensures |Map(NonBlankLines(text), Parser(now))| == |NonBlankLines(text)|
    ensures forall i :: 0 <= i < |NonBlankLines(text)| ==>
      Map(NonBlankLines(text), Parser(now))[i] == ParseSingleLog(NonBlankLines(text)[i], now)
  {
    MapIndex(NonBlankLines(text), Parser(now));
  }
}
