/** The per-line feature vector of `ThreatDetector.extract_features` in
    `utils/threat_detector.py` and its projection onto the model's feature schema.

    The values derived from pattern matches (counts, flags, hour, HTTP status) are
    stated over the matched strings, collected in `Captures`, so that what is proved
    about them holds whichever strings the patterns yield. `AsWrittenCaptures` is what
    the patterns of the source yield: five of them are raw strings with doubled
    backslashes, so they only match text holding a literal backslash. */
module Features {
  import opened Text
  import opened Scan

  // ================================================================ keyword counts

  /** The first alternative of `kws` that matches at `p`, ignoring case: how the
      regex `kw1|kw2|...` chooses. */
  function AltAt(kws: seq<string>, s: string, p: nat): (r: Option<Match>)
    requires forall k :: 0 <= k < |kws| ==> |kws[k]| > 0
    ensures r.Some? ==> p == r.value.groupStart < r.value.groupEnd == r.value.end <= |s|
    ensures r.Some? <==> exists k :: 0 <= k < |kws| && KeywordAt(s, p, kws[k])
  {
    if kws == [] then None
    else if KeywordAt(s, p, kws[0]) then Some(Match(p, p + |kws[0]|, p + |kws[0]|))
    else
      var r := AltAt(kws[1..], s, p);
      assert forall k :: 1 <= k < |kws| ==> kws[k] == kws[1..][k - 1];
      r
  }

  predicate NonEmptyWords(kws: seq<string>) {
    forall k :: 0 <= k < |kws| ==> |kws[k]| > 0
  }

  /** A keyword list: alternatives that are never empty, as in every pattern of the detector. */
  type Keywords = kws: seq<string> | NonEmptyWords(kws) witness []

  /** The case-insensitive regex `kw1|kw2|...` as a matcher. */
  function Alternation(kws: Keywords): (m: WfMatcher)
  {
    (s: string, p: nat) => AltAt(kws, s, p)
  }

  /** `len(re.findall('kw1|kw2|...', text, re.IGNORECASE))`: successive non-overlapping
      occurrences, scanning left to right. */
  function KeywordCount(text: string, kws: Keywords): nat
  {
    |FindAll(text, 0, Alternation(kws))|
  }

  /** A keyword count is zero exactly when no keyword occurs anywhere, and it never
      exceeds the length of the text. */
  lemma KeywordCountBounds(text: string, kws: Keywords)
    ensures KeywordCount(text, kws) == 0 <==>
      forall i, k :: 0 <= i <= |text| && 0 <= k < |kws| ==> !KeywordAt(text, i, kws[k])
    ensures KeywordCount(text, kws) <= |text|
  {
    var m := Alternation(kws);
    FindAllEmpty(text, 0, m);
    FindAllBound(text, 0, m);
    if KeywordCount(text, kws) != 0 {
      var q :| 0 <= q <= |text| && m(text, q).Some?;
      var k :| 0 <= k < |kws| && KeywordAt(text, q, kws[k]);
    } else {
      forall i, k | 0 <= i <= |text| && 0 <= k < |kws| ensures !KeywordAt(text, i, kws[k]) {
        assert m(text, i).None?;
      }
    }
  }

  const FailedWords: Keywords := ["failed", "fail"]
  const PasswordWords: Keywords := ["password"]
  const AdminWords: Keywords := ["admin"]
  const SudoWords: Keywords := ["sudo", "su:"]
  const ErrorWords: Keywords := ["error", "denied", "invalid", "unauthorized"]
  const ConnectionWords: Keywords := ["connection", "connect"]
  const AttackWords: Keywords := ["attack", "scan", "probe", "flood"]

  // ================================================================ matched values

  /** What the five structured patterns yield on a line: the `findall` lists of the
      root, IP and port patterns and the first group of the time and HTTP searches. */
  datatype Captures = Captures(
    rootMatches: seq<string>,
    ips: seq<string>,
    ports: seq<string>,
    time: Option<string>,
    http: Option<string>)

  /** The private ranges `has_external_ip` tests for, by prefix. */
  predicate IsInternalIp(ip: string) {
    StartsWith(ip, "192.168.") || StartsWith(ip, "10.") || StartsWith(ip, "172.")
  }

  /** `any(not ip.startswith(('192.168.', '10.', '172.')) for ip in ips)`. */
  function AnyExternal(ips: seq<string>): (b: bool)
    ensures b <==> exists k :: 0 <= k < |ips| && !IsInternalIp(ips[k])
  {
    if ips == [] then false
    else
      var rest := AnyExternal(ips[1..]);
      assert forall k :: 1 <= k < |ips| ==> ips[k] == ips[1..][k - 1];
      !IsInternalIp(ips[0]) || rest
  }

  const SuspiciousPorts: set<nat> := {22, 23, 21, 3389}

  /** `any(int(port) in [22, 23, 21, 3389] for port in ports if port.isdigit())`: the
      filter keeps `int` from ever seeing a non-digit string. */
  function AnySuspicious(ports: seq<string>): (b: bool)
    ensures b <==> exists k :: 0 <= k < |ports| && IsDecimal(ports[k]) && DecimalValue(ports[k]) in SuspiciousPorts
  {
    if ports == [] then false
    else
      var rest := AnySuspicious(ports[1..]);
      assert forall k :: 1 <= k < |ports| ==> ports[k] == ports[1..][k - 1];
      (IsDecimal(ports[0]) && DecimalValue(ports[0]) in SuspiciousPorts) || rest
  }

  function Flag(b: bool): nat { if b then 1 else 0 }

  // ================================================================ character ratios

  /** How many characters of `s` satisfy `p`. */
  function CountWhere(s: string, p: char -> bool): (n: nat)
    ensures n <= |s|
  {
    if s == [] then 0 else CountWhere(s[..|s| - 1], p) + (if p(s[|s| - 1]) then 1 else 0)
  }

  /** `count / len(text) if text else 0`. */
  function Ratio(count: nat, len: nat): (r: real)
    requires count <= len
    ensures 0.0 <= r <= 1.0
    ensures len == 0 ==> r == 0.0
    ensures len > 0 ==> r * (len as real) == count as real
  {
    if len == 0 then 0.0 else
      var r := count as real / len as real;
      assert r <= 1.0 by {
        assert count as real <= len as real;
      }
      r
  }

  predicate IsSpecial(c: char) { !IsAlnum(c) && c != ' ' }

  // ================================================================ the feature dict

  datatype Features = Features(
    logLength: nat,
    wordCount: nat,
    charCount: nat,
    failedCount: nat,
    passwordCount: nat,
    rootCount: nat,
    adminCount: nat,
    sudoCount: nat,
    errorCount: nat,
    connectionCount: nat,
    attackCount: nat,
    ipCount: nat,
    hasExternalIp: nat,
    portCount: nat,
    hasSuspiciousPort: nat,
    hour: nat,
    isNightTime: nat,
    digitRatio: real,
    specialCharRatio: real,
    uppercaseRatio: real,
    httpStatus: nat,
    isHttpError: nat)

  /** `int(s)` raised `ValueError` on the literal `s`. */
  datatype FeatureError = NotAnInteger(literal: string)

  /** The `int()` of a matched group. */
  function IntOf(g: string): (r: Result<nat, FeatureError>)
    ensures r.Ok? <==> IsDecimal(g)
    ensures r.Ok? ==> r.value == DecimalValue(g)
    ensures r.Err? ==> r.error == NotAnInteger(g)
  {
    if IsDecimal(g) then Ok(DecimalValue(g)) else Err(NotAnInteger(g))
  }

  /** The entries of the dict that depend on the text alone: its length and words,
      the keyword counts and the character ratios. The entries derived from the five
      structured patterns are left 0 here; `Assemble` fills them in. */
  function TextFeatures(text: string): (f: Features)
    ensures f.logLength == |text| && f.charCount == |text|
    ensures f.wordCount == RunCount(text, 0, false)
    ensures f.failedCount == KeywordCount(text, FailedWords) && f.passwordCount == KeywordCount(text, PasswordWords)
    ensures f.adminCount == KeywordCount(text, AdminWords) && f.sudoCount == KeywordCount(text, SudoWords)
    ensures f.errorCount == KeywordCount(text, ErrorWords) && f.connectionCount == KeywordCount(text, ConnectionWords)
    ensures f.attackCount == KeywordCount(text, AttackWords)
    ensures f.digitRatio == Ratio(CountWhere(text, IsDigit), |text|)
    ensures f.specialCharRatio == Ratio(CountWhere(text, IsSpecial), |text|)
    ensures f.uppercaseRatio == Ratio(CountWhere(text, IsUpper), |text|)
  {
    WordCountIsRunCount(text);
    Features(
      |text|, |Words(text)|, |text|,
      KeywordCount(text, FailedWords), KeywordCount(text, PasswordWords), 0,
      KeywordCount(text, AdminWords), KeywordCount(text, SudoWords), KeywordCount(text, ErrorWords),
      KeywordCount(text, ConnectionWords), KeywordCount(text, AttackWords),
      0, 0, 0, 0, 0, 0,
      Ratio(CountWhere(text, IsDigit), |text|), Ratio(CountWhere(text, IsSpecial), |text|),
      Ratio(CountWhere(text, IsUpper), |text|),
      0, 0)
  }

  /** The dict `extract_features` builds once the hour `h` and the status `code` are
      known. */
  function Assemble(text: string, c: Captures, h: nat, code: nat): (f: Features)
    ensures f.logLength == |text| && f.charCount == |text|
    ensures f.wordCount == RunCount(text, 0, false)
    ensures f.failedCount == KeywordCount(text, FailedWords) && f.passwordCount == KeywordCount(text, PasswordWords)
    ensures f.adminCount == KeywordCount(text, AdminWords) && f.sudoCount == KeywordCount(text, SudoWords)
    ensures f.errorCount == KeywordCount(text, ErrorWords) && f.connectionCount == KeywordCount(text, ConnectionWords)
    ensures f.attackCount == KeywordCount(text, AttackWords)
    ensures f.ipCount == |c.ips| && f.portCount == |c.ports| && f.rootCount == |c.rootMatches|
    ensures f.hasExternalIp == 1 <==> exists k :: 0 <= k < |c.ips| && !IsInternalIp(c.ips[k])
    ensures f.hasSuspiciousPort == 1 <==>
      exists k :: 0 <= k < |c.ports| && IsDecimal(c.ports[k]) && DecimalValue(c.ports[k]) in SuspiciousPorts
    ensures f.hour == h && f.httpStatus == code
    ensures f.isNightTime == 1 <==> c.time.Some? && (h < 6 || h > 22)
    ensures f.isHttpError == 1 <==> c.http.Some? && code >= 400
    ensures f.digitRatio == Ratio(CountWhere(text, IsDigit), |text|)
    ensures f.specialCharRatio == Ratio(CountWhere(text, IsSpecial), |text|)
    ensures f.uppercaseRatio == Ratio(CountWhere(text, IsUpper), |text|)
    ensures 0.0 <= f.digitRatio <= 1.0 && 0.0 <= f.specialCharRatio <= 1.0 && 0.0 <= f.uppercaseRatio <= 1.0
    ensures text == [] ==> f.digitRatio == 0.0 && f.specialCharRatio == 0.0 && f.uppercaseRatio == 0.0
  {
    TextFeatures(text).(
      rootCount := |c.rootMatches|,
      ipCount := |c.ips|, hasExternalIp := Flag(AnyExternal(c.ips)),
      portCount := |c.ports|, hasSuspiciousPort := Flag(AnySuspicious(c.ports)),
      hour := h, isNightTime := Flag(c.time.Some? && (h < 6 || h > 22)),
      httpStatus := code, isHttpError := Flag(c.http.Some? && code >= 400))
  }

  /** `extract_features` over the matched values `c`: the dict of the 22 features, or
      the `ValueError` that `int()` raises on a matched hour or status that is not a
      digit string (the hour is converted first). With no hour the default is 12, with
      no status 0. */
  function ExtractFeatures(text: string, c: Captures): (r: Result<Features, FeatureError>)
    ensures r.Err? <==> (c.time.Some? && !IsDecimal(c.time.value)) || (c.http.Some? && !IsDecimal(c.http.value))
    ensures r.Err? && c.time.Some? && !IsDecimal(c.time.value) ==> r.error == NotAnInteger(c.time.value)
    ensures r.Err? && !(c.time.Some? && !IsDecimal(c.time.value)) ==> r.error == NotAnInteger(c.http.value)
    ensures r.Ok? ==> r.value.hour == (if c.time.Some? then DecimalValue(c.time.value) else 12)
    ensures r.Ok? ==> r.value.httpStatus == (if c.http.Some? then DecimalValue(c.http.value) else 0)
    ensures r.Ok? ==> r.value == Assemble(text, c, r.value.hour, r.value.httpStatus)
  {
    var hour := if c.time.Some? then IntOf(c.time.value) else Ok(12);
    var status := if c.http.Some? then IntOf(c.http.value) else Ok(0);
    if hour.Err? then Err(hour.error)
    else if status.Err? then Err(status.error)
    else Ok(Assemble(text, c, hour.value, status.value))
  }

  /** The feature names, in the order `extract_features` inserts them. */
  const FeatureKeys: seq<string> := [
    "log_length", "word_count", "char_count", "failed_count", "password_count", "root_count",
    "admin_count", "sudo_count", "error_count", "connection_count", "attack_count", "ip_count",
    "has_external_ip", "port_count", "has_suspicious_port", "hour", "is_night_time", "digit_ratio",
    "special_char_ratio", "uppercase_ratio", "http_status", "is_http_error"]

  /** The values of the dict, in insertion order. */
  function Values(f: Features): (v: seq<real>)
    ensures |v| == |FeatureKeys|
  {
    [f.logLength as real, f.wordCount as real, f.charCount as real, f.failedCount as real,
     f.passwordCount as real, f.rootCount as real, f.adminCount as real, f.sudoCount as real,
     f.errorCount as real, f.connectionCount as real, f.attackCount as real, f.ipCount as real,
     f.hasExternalIp as real, f.portCount as real, f.hasSuspiciousPort as real, f.hour as real,
     f.isNightTime as real, f.digitRatio, f.specialCharRatio, f.uppercaseRatio,
     f.httpStatus as real, f.isHttpError as real]
  }

  /** The dict itself: its items in insertion order. */
  function Entries(f: Features): (d: seq<(string, real)>)
    ensures |d| == |FeatureKeys|
    ensures forall i :: 0 <= i < |d| ==> d[i] == (FeatureKeys[i], Values(f)[i])
  {
    var v := Values(f);
    seq(|FeatureKeys|, i requires 0 <= i < |FeatureKeys| => (FeatureKeys[i], v[i]))
  }

  lemma FeatureKeysDistinct()
    ensures forall i, j :: 0 <= i < j < |FeatureKeys| ==> FeatureKeys[i] != FeatureKeys[j]
  {
  }

  // ================================================================ schema projection

  predicate UniqueKeys(d: seq<(string, real)>) {
    forall i, j :: 0 <= i < j < |d| ==> d[i].0 != d[j].0
  }

  /** `d.get(name, 0)`. */
  function Get(d: seq<(string, real)>, name: string): (v: real)
    ensures (forall i :: 0 <= i < |d| ==> d[i].0 != name) ==> v == 0.0
    ensures forall i :: 0 <= i < |d| && d[i].0 == name && (forall j :: 0 <= j < i ==> d[j].0 != name) ==> v == d[i].1
  {
    if d == [] then 0.0
    else if d[0].0 == name then d[0].1
    else
      var v := Get(d[1..], name);
      assert forall i :: 1 <= i < |d| ==> d[i] == d[1..][i - 1];
      v
  }

  /** The dict as a mapping from names to values, forgetting the insertion order. */
  function AsMap(d: seq<(string, real)>): map<string, real>
    requires UniqueKeys(d)
  {
    map i | 0 <= i < |d| :: d[i].0 := d[i].1
  }

  /** With distinct keys, `get` depends only on the mapping, not on the order. */
  lemma GetByMap(d: seq<(string, real)>, name: string)
    requires UniqueKeys(d)
    ensures Get(d, name) == if name in AsMap(d) then AsMap(d)[name] else 0.0
  {
    if exists i :: 0 <= i < |d| && d[i].0 == name {
      var i :| 0 <= i < |d| && d[i].0 == name;
      assert AsMap(d)[name] == d[i].1;
    }
  }

  /** `[d.get(name, 0) for name in names]`. */
  function Project(d: seq<(string, real)>, names: seq<string>): (v: seq<real>)
    ensures |v| == |names|
    ensures forall i :: 0 <= i < |names| ==> v[i] == Get(d, names[i])
  {
    seq(|names|, i requires 0 <= i < |names| => Get(d, names[i]))
  }

  /** The feature vector of one line: the projection onto `names` when the model
      metadata lists them, else all the dict's values in insertion order. */
  function FeatureVector(f: Features, names: seq<string>): (v: seq<real>)
    ensures names != [] ==> |v| == |names| && forall i :: 0 <= i < |names| ==> v[i] == Get(Entries(f), names[i])
    ensures names == [] ==> v == Values(f) && |v| == 22
  {
    if names != [] then Project(Entries(f), names) else Values(f)
  }

  /** Two dicts with the same items, in whatever order, project alike. */
  lemma ProjectIgnoresOrder(d1: seq<(string, real)>, d2: seq<(string, real)>, names: seq<string>)
    requires UniqueKeys(d1) && UniqueKeys(d2) && AsMap(d1) == AsMap(d2)
    ensures Project(d1, names) == Project(d2, names)
  {
    forall i | 0 <= i < |names| ensures Project(d1, names)[i] == Project(d2, names)[i] {
      GetByMap(d1, names[i]);
      GetByMap(d2, names[i]);
    }
  }

  /** A schema that lists the features in insertion order gives the same vector as the
      fallback, and a name the dict lacks projects to 0. */
  lemma ProjectFullSchema(f: Features)
    ensures Project(Entries(f), FeatureKeys) == Values(f)
    ensures forall name :: name !in FeatureKeys ==> Get(Entries(f), name) == 0.0
  {
    FeatureKeysDistinct();
    forall i | 0 <= i < |FeatureKeys| ensures Project(Entries(f), FeatureKeys)[i] == Values(f)[i] {
      assert Entries(f)[i] == (FeatureKeys[i], Values(f)[i]);
    }
  }

  /** Projecting `{word_count: 5, hour: 3, port_count: 0}` onto `[word_count, hour]`
      gives `[5, 3]`, in either insertion order. */
  lemma ProjectExample()
    ensures Project([("word_count", 5.0), ("hour", 3.0), ("port_count", 0.0)], ["word_count", "hour"]) == [5.0, 3.0]
    ensures Project([("port_count", 0.0), ("hour", 3.0), ("word_count", 5.0)], ["word_count", "hour"]) == [5.0, 3.0]
  {
    var d2 := [("port_count", 0.0), ("hour", 3.0), ("word_count", 5.0)];
    assert Get(d2[2..], "word_count") == 5.0;
    assert Get(d2[1..], "hour") == 3.0;
  }

  // ================================================================ the patterns as written

  /** `\\broot\\b`, ignoring case: a backslash, `b`, `root`, a backslash, `b`. */
  function EscapedRootAt(s: string, p: nat): (r: Option<Match>)
    ensures r.Some? ==> p == r.value.groupStart < r.value.groupEnd == r.value.end <= |s| && s[p] == '\\'
  {
    if KeywordAt(s, p, "\\broot\\b") then
      assert Lower(s[p + 0]) == "\\broot\\b"[0];
      Some(Match(p, p + 8, p + 8))
    else None
  }

  predicate IsD(c: char) { c == 'd' }

  /** `\\d{1,3}` at `i` followed by `x`: a backslash, one to three `d`s, then the
      position of what follows them. A longer run of `d`s cannot match, since the next
      item is not a `d`. */
  function EscapedDigits(s: string, i: nat): (r: Option<nat>)
    requires i <= |s|
    ensures r.Some? ==> i + 2 <= r.value <= i + 4 && r.value <= |s| && s[i] == '\\'
  {
    if i < |s| && s[i] == '\\' then
      var e := RunEnd(s, i + 1, IsD);
      if 1 <= e - (i + 1) <= 3 then Some(e) else None
    else None
  }

  /** `\\d{1,3}\\.` at `i`: the escaped digits, a backslash, and any character but a line break. */
  function EscapedGroup(s: string, i: nat): (r: Option<nat>)
    requires i <= |s|
    ensures r.Some? ==> i + 4 <= r.value <= |s| && s[i] == '\\'
  {
    match EscapedDigits(s, i)
    case None => None
    case Some(e) => if e + 1 < |s| && s[e] == '\\' && s[e + 1] != '\n' then Some(e + 2) else None
  }

  /** `\\b(?:\\d{1,3}\\.){3}\\d{1,3}\\b`, case-sensitive; `findall` yields the whole match. */
  function EscapedIpAt(s: string, p: nat): (r: Option<Match>)
    ensures r.Some? ==> p == r.value.groupStart < r.value.groupEnd == r.value.end <= |s| && s[p] == '\\'
  {
    if p + 2 <= |s| && s[p] == '\\' && s[p + 1] == 'b' then
      match EscapedGroup(s, p + 2)
      case None => None
      case Some(a) =>
        match EscapedGroup(s, a)
        case None => None
        case Some(b) =>
          match EscapedGroup(s, b)
          case None => None
          case Some(c) =>
            match EscapedDigits(s, c)
            case None => None
            case Some(e) => if e + 1 < |s| && s[e] == '\\' && s[e + 1] == 'b' then Some(Match(p, e + 2, e + 2)) else None
    else None
  }

  predicate IsLetterS(c: char) { Lower(c) == 's' }

  predicate IsLetterD(c: char) { Lower(c) == 'd' }

  /** `port\\s+(\\d+)`, ignoring case: `port`, a backslash, `s`s, then the group: a
      backslash and `d`s. */
  function EscapedPortAt(s: string, p: nat): (r: Option<Match>)
    ensures r.Some? ==> p < r.value.groupStart < r.value.groupEnd == r.value.end <= |s| && s[r.value.groupStart] == '\\'
  {
    var x := p + 4;
    if KeywordAt(s, p, "port") && x < |s| && s[x] == '\\' then
      var a := RunEnd(s, x + 1, IsLetterS);
      if a > x + 1 && a < |s| && s[a] == '\\' then
        var b := RunEnd(s, a + 1, IsLetterD);
        if b > a + 1 then Some(Match(a, b, b)) else None
      else None
    else None
  }

  /** `(\\d{2}):(\\d{2}):(\\d{2})`: the literal `\dd:\dd:\dd`; the first group is `\dd`. */
  function EscapedTimeAt(s: string, p: nat): (r: Option<Match>)
    ensures r.Some? ==> p == r.value.groupStart < r.value.groupEnd <= r.value.end <= |s| && s[p] == '\\'
    ensures r.Some? ==> s[r.value.groupStart..r.value.groupEnd] == "\\dd"
  {
    if LitAt(s, p, "\\dd:\\dd:\\dd") then
      assert s[p..p + 3] == s[p..p + 11][..3];
      Some(Match(p, p + 3, p + 11))
    else None
  }

  /** `HTTP/1\\.[01]"\\s+(\\d{3})`: `HTTP/1`, a backslash, any character but a line break,
      `0` or `1`, a quote, a backslash, `s`s, then the group: a backslash and `ddd`. */
  function EscapedHttpAt(s: string, p: nat): (r: Option<Match>)
    ensures r.Some? ==> p < r.value.groupStart < r.value.groupEnd == r.value.end <= |s| && s[r.value.groupStart] == '\\'
    ensures r.Some? ==> s[r.value.groupStart..r.value.groupEnd] == "\\ddd"
  {
    if LitAt(s, p, "HTTP/1\\") && p + 11 <= |s| && s[p + 7] != '\n' && s[p + 8] in {'0', '1'}
      && s[p + 9] == '"' && s[p + 10] == '\\'
    then
      var a := RunEnd(s, p + 11, IsS);
      if a > p + 11 && LitAt(s, a, "\\ddd") then
        assert s[a..a + 4] == "\\ddd";
        Some(Match(a, a + 4, a + 4))
      else None
    else None
  }

  predicate IsS(c: char) { c == 's' }

  const RootPattern: WfMatcher := EscapedRootAt
  const IpPattern: WfMatcher := EscapedIpAt
  const PortPattern: WfMatcher := EscapedPortAt
  const TimePattern: WfMatcher := EscapedTimeAt
  const HttpPattern: WfMatcher := EscapedHttpAt

  /** What the patterns of `extract_features`, as written, yield on `text`. */
  function AsWrittenCaptures(text: string): Captures {
    Captures(
      FindAll(text, 0, RootPattern), FindAll(text, 0, IpPattern), FindAll(text, 0, PortPattern),
      Capture(text, TimePattern), Capture(text, HttpPattern))
  }

  /** `extract_features(text)`. */
  function FeaturesOf(text: string): Result<Features, FeatureError> {
    ExtractFeatures(text, AsWrittenCaptures(text))
  }

  /** Every pattern as written needs a backslash in the text. */
  lemma NeedsBackslash(text: string, q: nat)
    requires '\\' !in text
    ensures RootPattern(text, q).None? && IpPattern(text, q).None? && PortPattern(text, q).None?
    ensures TimePattern(text, q).None? && HttpPattern(text, q).None?
  {
  }

  /** So on a line without a backslash the five pattern-derived features keep their
      defaults: no root, IP or port matches, no external IP or suspicious port, hour 12
      and HTTP status 0. */
  lemma AsWrittenDefaults(text: string)
    requires '\\' !in text
    ensures FeaturesOf(text).Ok?
    ensures FeaturesOf(text).value.rootCount == 0 && FeaturesOf(text).value.ipCount == 0
    ensures FeaturesOf(text).value.portCount == 0
    ensures FeaturesOf(text).value.hasExternalIp == 0 && FeaturesOf(text).value.hasSuspiciousPort == 0
    ensures FeaturesOf(text).value.hour == 12 && FeaturesOf(text).value.isNightTime == 0
    ensures FeaturesOf(text).value.httpStatus == 0 && FeaturesOf(text).value.isHttpError == 0
  {
    forall q | 0 <= q <= |text| ensures IpPattern(text, q).None? && RootPattern(text, q).None? {
      NeedsBackslash(text, q);
    }
    forall q | 0 <= q <= |text| ensures PortPattern(text, q).None? && TimePattern(text, q).None? {
      NeedsBackslash(text, q);
    }
    forall q | 0 <= q <= |text| ensures HttpPattern(text, q).None? {
      NeedsBackslash(text, q);
    }
    FindAllEmpty(text, 0, RootPattern);
    FindAllEmpty(text, 0, IpPattern);
    FindAllEmpty(text, 0, PortPattern);
  }

  /** Wherever the patterns as written do match, the hour and status groups are `\dd`
      and `\ddd`, which `int()` rejects: such a line makes `extract_features` raise. */
  lemma AsWrittenTimeOrStatusRaises(text: string)
    requires Capture(text, TimePattern).Some? || Capture(text, HttpPattern).Some?
    ensures FeaturesOf(text).Err?
  {
    var c := AsWrittenCaptures(text);
    if c.time.Some? {
      var (q, m) := Search(text, 0, TimePattern).value;
      assert c.time.value == "\\dd";
      assert !IsDigit(c.time.value[0]);
    } else {
      var (q, m) := Search(text, 0, HttpPattern).value;
      assert c.http.value == "\\ddd";
      assert !IsDigit(c.http.value[0]);
    }
  }

  predicate StartsWithBackslash(g: string) { |g| > 0 && g[0] == '\\' }

  /** Every port the port pattern as written yields starts with a backslash. */
  lemma AsWrittenPortsEscaped(text: string)
    ensures forall k :: 0 <= k < |FindAll(text, 0, PortPattern)| ==> StartsWithBackslash(FindAll(text, 0, PortPattern)[k])
  {
    FindAllGroups(text, 0, PortPattern, StartsWithBackslash);
  }

  /** Every address the IP pattern as written yields starts with a backslash. */
  lemma AsWrittenIpsEscaped(text: string)
    ensures forall k :: 0 <= k < |FindAll(text, 0, IpPattern)| ==> StartsWithBackslash(FindAll(text, 0, IpPattern)[k])
  {
    FindAllGroups(text, 0, IpPattern, StartsWithBackslash);
  }

  /** A string starting with a backslash is neither a port number nor a private address. */
  lemma EscapedIsNeither(g: string)
    requires StartsWithBackslash(g)
    ensures !IsDecimal(g) && !IsInternalIp(g)
  {
    assert !IsDigit(g[0]);
    if |g| >= 3 {
      assert g[..3][0] == '\\';
    }
  }

  /** So with the patterns as written no port is a digit string and `has_suspicious_port`
      is never set, and no address is private, so `has_external_ip` is set exactly
      when the IP pattern matched somewhere. */
  lemma AsWrittenDerivedFlags(text: string)
    requires FeaturesOf(text).Ok?
    ensures FeaturesOf(text).value.hasSuspiciousPort == 0
    ensures FeaturesOf(text).value.hasExternalIp == 1 <==> FeaturesOf(text).value.ipCount > 0
  {
    var c := AsWrittenCaptures(text);
    AsWrittenPortsEscaped(text);
    AsWrittenIpsEscaped(text);
    forall k | 0 <= k < |c.ports| ensures !IsDecimal(c.ports[k]) {
      EscapedIsNeither(c.ports[k]);
    }
    if |c.ips| > 0 {
      EscapedIsNeither(c.ips[0]);
    }
  }
}
