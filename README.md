# cyberthreat-detector: the log parser and the threat detector, in Dafny

cyberthreat-detector reads free-text Unix and web-server logs and flags threats. The
`LogParser` class (`utils/log_parser.py`) turns each non-blank line into a record. A
record holds:

- the format tag;
- the timestamp, source IP, user and command, each taken from the first of an ordered
  list of patterns that matches, else a sentinel;
- the threat-indicator hits of a fixed keyword taxonomy;
- a few lexical statistics.

The `ThreatDetector` class (`utils/threat_detector.py`) works on those records:

- it computes 22 numeric features per line;
- it projects them onto the feature schema the models were trained with;
- it fuses the labels of a random forest and an isolation forest into threat details;
- it names each threat with a keyword cascade and scores the batch.

The project has five modules. Each one models, or serves, one part of the program:

- `Text` (`text.dfy`) holds the Python string operations the code relies on: `strip`,
  `split`, `split()` word counting, ASCII case folding and character classes, `int()`
  on digit strings, and `map`.
- `Scan` (`scan.dfy`) holds the `re` module's search semantics over matchers written by
  hand:
  - `Search` is `re.search`, the leftmost match;
  - `FindAll` is `re.findall`, successive non-overlapping matches;
  - `FirstCapture` is the "first pattern of a list that matches" loop.
- `LogParser` (`logparser.dfy`) models `utils/log_parser.py`:
  - one matcher per regex;
  - the format cascade, and the four field extractors with their sentinels;
  - the nested indicator loop as a method proved against a specification function;
  - `parse_logs` as a method over the lines.
- `Features` (`features.dfy`) models `extract_features` and the schema projection of
  `_extract_features_from_parsed_logs`.
- `Detector` (`detector.dfy`) models the rest of `ThreatDetector`. That is the class with
  its `model_loaded`, `feature_names`, `metadata` and model fields, `_load_models`, the
  feature matrix loop, `detect_threats` (proved equal to the specification function
  `Detection`), `_classify_threat_type` and `get_model_stats`.

The derived values of `extract_features` (counts, flags, hour, HTTP status) are stated
over the strings the patterns yield (`Features.Captures`), so what is proved about them
holds whatever those patterns match. Five patterns in `utils/threat_detector.py` are raw
strings with doubled backslashes (`r'\\broot\\b'` and the IP, port, time and HTTP
patterns, lines 62, 70, 76, 82, 98). As written, each of them matches only text holding
a literal backslash. They are modelled as written: `Features.AsWrittenCaptures` gives
exactly what they yield. The lemmas then show the consequences:

- on a line without a backslash these features keep their defaults (`AsWrittenDefaults`);
- `has_suspicious_port` is never set, and `has_external_ip` equals `ip_count > 0`
  (`AsWrittenDerivedFlags`);
- a line that does match the time or HTTP pattern makes `int()` raise, and the whole
  batch then gets the error result (`AsWrittenTimeOrStatusRaises`,
  `Detector.AsWrittenEscapesFailBatch`).

So the model keeps the behaviour of the code as it is, rather than what the patterns
were evidently meant to do.

The same reading of the format patterns shows two more facts:

- every line in the auth format also matches the syslog format, which is tried first;
- every nginx line also matches the apache pattern, which is tried first.

So `log_type` is never `auth` or `nginx` (`LogParser.LogTypeNeverAuthOrNginx`).

Other behaviour of the code that the model keeps:

- When no feature names are stored, the vector silently falls back to the dict's
  insertion order.
- A feature vector of the wrong width surfaces only as whatever error the scaler raises.
- The root, IPv4, port, time and HTTP-status features use the patterns as written,
  described above.
- The threat cues and keyword groups are the source's own lists.

The trained models are functions of the feature matrix (`Detector.ModelFns`). Their
ranges are stated as types: labels in {0, 1}, probabilities in [0, 1], anomaly labels
in {1, -1}. They are assumed to answer one row per input row (`Detector.Coherent`). The
outcome of reading the model files is a parameter of the constructor
(`Detector.LoadOutcome`). The clock used by the timestamp fallback is a parameter
(`LogParser.Clock`).

## Model

| member | source | states |
|---|---|---|
| Text.Strip | utils/log_parser.py:28 | `strip()` removes exactly the leading and trailing whitespace: the result is a slice of the input with no whitespace at either end, and it is empty exactly when the input is all whitespace |
| Text.StripContained | utils/log_parser.py:111 | stripping text found in a line gives text found in that line |
| Text.Split | utils/log_parser.py:28 | `split('\n')` gives at least one piece, and no piece contains the separator |
| Text.JoinSplit | utils/log_parser.py:28 | joining the pieces of `split` with the separator gives back the input |
| Text.SplitJoin | utils/log_parser.py:28 | the other round trip: splitting pieces joined by a separator none of them holds gives back the pieces |
| Text.WordCountIsRunCount | utils/log_parser.py:62 | `len(line.split())` is the number of maximal runs of non-whitespace |
| Text.MapIndex | utils/log_parser.py:30-36 | mapping keeps length, and element `k` is `f` of input `k` |
| Scan.Search | utils/log_parser.py:76 | the match of `re.search` is at the leftmost position where the pattern matches |
| Scan.Capture | utils/log_parser.py:76-78 | a group exists exactly when the pattern matches somewhere, and then it is the group of the leftmost match |
| Scan.CaptureContained | utils/log_parser.py:76-78 | the captured group is text of the line |
| Scan.FindAllEmpty | utils/threat_detector.py:60 | `findall` is empty exactly when the pattern matches nowhere |
| Scan.FindAllBound | utils/threat_detector.py:60 | `findall` never returns more matches than there are characters |
| Scan.FindAllGroups | utils/threat_detector.py:71 | a property of every group of a pattern holds of every string `findall` returns |
| Scan.FirstCapture | utils/log_parser.py:75-78 | the capture of the first pattern in the list that matches anywhere, with every earlier pattern matching nowhere; none exactly when no pattern matches |
| Scan.FirstCaptureContained | utils/log_parser.py:75-78 | the capture of a pattern list is text of the line |
| Scan.FirstCaptureGroups | utils/log_parser.py:94-97 | a property shared by the groups of all patterns holds of the first capture |
| LogParser.LogTypeNeverAuthOrNginx | utils/log_parser.py:9-13 | the first-match cascade over syslog, auth, apache and nginx never yields auth or nginx, because syslog and apache are tried first and match those lines too |
| LogParser.AuthImpliesSyslog | utils/log_parser.py:10-11 | every line the auth pattern matches, the syslog pattern matches |
| LogParser.NginxImpliesApache | utils/log_parser.py:12-13 | every line the nginx pattern matches, the apache pattern matches |
| LogParser.TagPidHasColon | utils/log_parser.py:10-11 | an auth program tag `tag[pid]:` is also a syslog tag `tag:` |
| LogParser.DashIsToken | utils/log_parser.py:12-13 | the nginx `-\s+` is an instance of the apache `\S+\s+` |
| LogParser.ParseSingleLog | utils/log_parser.py:40-48 | the record keeps the line as `raw_log` and its `log_type` is the cascade's result, one of syslog, apache, generic |
| LogParser.ExtractRecord | utils/log_parser.py:50-65 | the record keeps the line, the format and its length, and each other field is its extractor applied to the line: timestamp, source IP, user, command, threat indicators, digit flag, special-character flag, word count; so its source IP is "unknown" or IPv4-shaped, its user is a word, and its indicator count is at most 19, with categories from the taxonomy |
| LogParser.ExtractTimestamp | utils/log_parser.py:67-80 | the capture of the first of the three stamp patterns that matches anywhere; only when none does, the clock formatted as `%b %d %H:%M:%S`; otherwise text of the line |
| LogParser.ClockStampIsSyslogShaped | utils/log_parser.py:80 | the fallback stamp has the syslog stamp's shape, 15 characters |
| LogParser.ExtractIp | utils/log_parser.py:82-85 | "unknown" exactly when the IPv4 pattern matches nowhere; otherwise the text of the leftmost match (no earlier position matches), four dot-separated groups of 1 to 3 digits with no range check |
| LogParser.Ipv4MatchHasShape | utils/log_parser.py:83 | every match of the IPv4 pattern is four dot-separated groups of 1 to 3 digits |
| LogParser.UserPatternsCaptureWords | utils/log_parser.py:88-92 | each user pattern captures a non-empty run of word characters |
| LogParser.ExtractUser | utils/log_parser.py:87-99 | "unknown" when no pattern matches, else the capture of the first of `user`, `for`, `from` that matches anywhere in the line (so a later `user X` beats an earlier `for Y`); always a non-empty word |
| LogParser.ExtractCommand | utils/log_parser.py:101-113 | "none" when no pattern matches, else the stripped rest of the line after the first of `COMMAND=`, `executed`, `running` that matches; text of the line with no whitespace at either end |
| LogParser.CueHits | utils/log_parser.py:120-122 | the cues of a category that match number at most the cues, and zero exactly when none matches |
| LogParser.HitCategoriesExact | utils/log_parser.py:119-127 | a category is reported exactly when one of its cues matches |
| LogParser.HitsConsistent | utils/log_parser.py:119-127 | the total is at most the number of cues, it is at least the number of categories, and it is zero exactly when no category is reported |
| LogParser.NineteenCues | utils/log_parser.py:17-24 | the taxonomy has 19 cues |
| LogParser.IndicatorsConsistent | utils/log_parser.py:115-128 | `count` is at most 19, `types` is drawn from the six category names and has at most `count` elements, and `count` is zero exactly when `types` is empty |
| LogParser.CountHits | utils/log_parser.py:116-123 | the two loops over any cue table return the specification counts `TotalHits` and categories `HitCategories` of that table |
| LogParser.CountThreatIndicators | utils/log_parser.py:115-128 | the nested loops count each matching cue once and collect its category: the result is the specification `Indicators`, with its bounds |
| LogParser.HasNumbers | utils/log_parser.py:60 | `has_numbers` is 1 exactly when the line holds a digit, else 0 |
| LogParser.HasSpecialChars | utils/log_parser.py:61 | `has_special_chars` is 1 exactly when the line holds one of the listed characters, else 0 |
| LogParser.WordCount | utils/log_parser.py:62 | `word_count` is the number of maximal non-whitespace runs |
| LogParser.KeepNonBlankExact | utils/log_parser.py:30-32 | a line is kept exactly when it is a line of the input that is not blank after stripping |
| LogParser.KeepNonBlankOrder | utils/log_parser.py:30-36 | two kept lines stay in their input order |
| LogParser.BlankTextHasNoLines | utils/log_parser.py:28-32 | whitespace-only text gives no lines |
| LogParser.MapNonBlank | utils/log_parser.py:30-36 | the loop applies the parser to each non-blank line, in order |
| LogParser.ParseLogs | utils/log_parser.py:26-38 | `parse_logs` gives one record per non-blank line of `text.strip().split('\n')`, in order |
| LogParser.ParsedLines | utils/log_parser.py:26-38 | there are as many records as non-blank lines, and record `i` is the parse of line `i` |
| Features.KeywordCountBounds | utils/threat_detector.py:60-67 | a keyword count is zero exactly when no keyword occurs anywhere (ignoring case), and it never exceeds the text length |
| Features.AnyExternal | utils/threat_detector.py:73 | set exactly when some matched IP starts with none of `192.168.`, `10.`, `172.` |
| Features.AnySuspicious | utils/threat_detector.py:79 | set exactly when some matched port is a digit string whose value is 22, 23, 21 or 3389 |
| Features.Ratio | utils/threat_detector.py:93-95 | a ratio lies in [0, 1], is 0 for empty text and otherwise times the length gives the count |
| Features.IntOf | utils/threat_detector.py:85 | `int()` succeeds exactly on digit strings, with their value; otherwise a `ValueError` on the literal |
| Features.Assemble | utils/threat_detector.py:55-106 | `log_length` and `char_count` are the length; `word_count` counts the runs; each of the seven keyword counts is the `findall` count of its alternation; the IP, port and root counts are the match counts; the two flags hold as stated; night time is an hour below 6 or above 22 with a time match; the HTTP error is a status of at least 400 with a status match; each ratio is the count of its characters over the length (0 for empty text), so it lies in [0, 1] |
| Features.ExtractFeatures | utils/threat_detector.py:81-106 | an error exactly when a matched hour or status is not a digit string; the error names the hour's literal when the hour is bad and the status's literal otherwise; on success the hour is the matched value or 12, the status the matched value or 0, and the dict is the one assembled from them |
| Features.Entries | utils/threat_detector.py:52-106 | the dict has the 22 feature names in insertion order, each with its value |
| Features.FeatureKeysDistinct | utils/threat_detector.py:52-106 | the 22 keys of the dict are distinct |
| Features.Get | utils/threat_detector.py:204 | `get(name, 0)` is 0 for a name the dict lacks, else the value of its first entry |
| Features.GetByMap | utils/threat_detector.py:204 | with distinct keys, `get` depends only on the key-value mapping |
| Features.Project | utils/threat_detector.py:204 | the projection has one entry per name, entry `i` being `get(name_i, 0)` |
| Features.ProjectIgnoresOrder | utils/threat_detector.py:204 | two dicts with the same items in any order project alike |
| Features.ProjectExample | utils/threat_detector.py:204 | `{word_count: 5, hour: 3, port_count: 0}` projects onto `[word_count, hour]` as `[5, 3]`, in either insertion order |
| Features.FeatureVector | utils/threat_detector.py:203-207 | with a non-empty schema, one entry per name, each the dict's value or 0; without one, the dict's 22 values in insertion order |
| Features.ProjectFullSchema | utils/threat_detector.py:203-207 | projecting onto the dict's own keys gives the fallback vector, and any other name projects to 0 |
| Features.EscapedRootAt | utils/threat_detector.py:62 | the root pattern as written matches only where the text holds a backslash |
| Features.EscapedIpAt | utils/threat_detector.py:70 | the IP pattern as written matches only where the text holds a backslash |
| Features.EscapedPortAt | utils/threat_detector.py:76 | the port pattern as written captures only text that starts with a backslash |
| Features.EscapedTimeAt | utils/threat_detector.py:82 | the time pattern as written matches only the literal `\dd:\dd:\dd`, and its first group is `\dd` |
| Features.EscapedHttpAt | utils/threat_detector.py:98 | the HTTP pattern as written captures only the literal `\ddd` |
| Features.NeedsBackslash | utils/threat_detector.py:62-98 | none of the five patterns as written matches text without a backslash |
| Features.AsWrittenDefaults | utils/threat_detector.py:62-106 | on a line without a backslash, the features exist with no root, IP or port matches, both flags 0, hour 12, not night, status 0 and no HTTP error |
| Features.AsWrittenTimeOrStatusRaises | utils/threat_detector.py:82-101 | a line the time or HTTP pattern as written does match makes `extract_features` raise |
| Features.AsWrittenPortsEscaped | utils/threat_detector.py:76-77 | every port the port pattern as written yields starts with a backslash |
| Features.AsWrittenIpsEscaped | utils/threat_detector.py:70-71 | every address the IP pattern as written yields starts with a backslash |
| Features.EscapedIsNeither | utils/threat_detector.py:73-79 | a string starting with a backslash is neither a digit string nor a private-prefix address |
| Features.AsWrittenDerivedFlags | utils/threat_detector.py:70-79 | with the patterns as written `has_suspicious_port` is always 0 and `has_external_ip` is 1 exactly when `ip_count` is positive |
| Detector.Verdicts | utils/threat_detector.py:145-155 | the rows zipped from the three model outputs, one per scaled row |
| Detector.CollectOk | utils/threat_detector.py:198-211 | the row loop succeeds exactly when every record's features do, and then holds their vectors in order |
| Detector.CollectErr | utils/threat_detector.py:198-211 | a failing row loop fails with the error of the first failing record |
| Detector.CollectErrorPersists | utils/threat_detector.py:198-211 | once a record fails, the loop's result is that failure |
| Detector.RowVector | utils/threat_detector.py:199-207 | a record's vector is the projection of its feature dict, as wide as the schema (22 without one), or the error its features raise |
| Detector.FeatureRowsExact | utils/threat_detector.py:194-211 | the matrix exists exactly when every record's features do; row `i` is record `i`'s vector with the schema's width; otherwise the error is that of the first failing record |
| Detector.CollectEach | utils/threat_detector.py:198-211 | the loop over the records returns exactly `Collect`: all values in order, or the first error |
| Detector.ThreatDetector.ExtractFeaturesFromParsedLogs | utils/threat_detector.py:194-211 | the loop returns the specification matrix `FeatureRows` of the records under the detector's `feature_names` |
| Detector.FirstGroup | utils/threat_detector.py:217-228 | the label of the first keyword group mentioned, with no earlier group mentioned; suspicious activity when none is |
| Detector.ClassifyThreatType | utils/threat_detector.py:213-228 | suspicious activity exactly when the lower-cased line mentions no keyword group, else the label of the first group it mentions |
| Detector.FirstMentionedGroupWins | utils/threat_detector.py:217-228 | the first group mentioned decides, whatever later groups the line also mentions |
| Detector.FailedPasswordIsBruteForce | utils/threat_detector.py:217-218 | a line mentioning "failed password" is brute force even when it also says `sudo` |
| Detector.FailedPasswordExample | utils/threat_detector.py:217-218 | "Failed password for root from 10.0.0.1" is brute force |
| Detector.DetailOf | utils/threat_detector.py:158-172 | a detail's confidence lies in [0, 1] |
| Detector.Fused | utils/threat_detector.py:155-172 | there are as many details as flagged rows, at most one per row |
| Detector.FlaggedRowsExact | utils/threat_detector.py:155-161 | the flagged rows are exactly those with classifier label 1 or anomaly label -1, listed once each in increasing order |
| Detector.FusedIndexed | utils/threat_detector.py:155-172 | detail `k` is the detail of the `k`-th flagged row |
| Detector.FusedStep | utils/threat_detector.py:161-172 | a flagged row appends its detail, and another row appends nothing |
| Detector.TypesSnoc | utils/threat_detector.py:163 | adding a detail adds its threat type to the set |
| Detector.CombineResults | utils/threat_detector.py:152-172 | the loop collects exactly the specification details `Fused`, and the set of their threat types |
| Detector.FusionRule | utils/threat_detector.py:158-172 | row `i` has a detail exactly when its classifier label is 1 or its anomaly label is -1; the detail carries the row's text, timestamp and address, its classifier probability when the label is 1 and 0 otherwise (anomaly-only hits carry no confidence), whether the anomaly label is -1, and the line's threat type |
| Detector.ConfidenceSumBounds | utils/threat_detector.py:176 | with confidences in [0, 1] their sum lies between 0 and the number of details |
| Detector.RiskScoreBounds | utils/threat_detector.py:175-176 | the risk score lies in [0, 100], is at least the flagged percentage (capped at 100), at most that percentage plus 50, and 0 when nothing is flagged |
| Detector.RiskScoreExample | utils/threat_detector.py:175-176 | two flagged rows out of ten with confidences 0.8 and 0.4 score 50 |
| Detector.NotLoadedReport | utils/threat_detector.py:112-119 | without models, no threats, no types, no details, risk 0 and the non-empty not-loaded error |
| Detector.EmptyLogsReport | utils/threat_detector.py:121-127 | no records give no threats, no types, no details, risk 0 and no error |
| Detector.DetectionCases | utils/threat_detector.py:129-192 | with models and records, there is an error exactly when the features or the scaler fail, and the result is then empty with the fixed prefix on the message; otherwise it is the report of the verdicts on the scaled matrix |
| Detector.SuccessReport | utils/threat_detector.py:174-183 | the threat count is the number of details, which are the flagged rows' details in row order, at most one per record; the types are the set of their types; the risk score lies in [0, 100], 0 when nothing is flagged |
| Detector.AsWrittenEscapesFailBatch | utils/threat_detector.py:82-101 | with the patterns as written, one record holding a literal `\dd:\dd:\dd` or an escaped HTTP status makes the whole batch return the error result |
| Detector.NamesIn | utils/threat_detector.py:37 | `feature_names` is the stored list of names when the metadata has one, and empty when it has no such entry |
| Detector.MetaGet | utils/threat_detector.py:245-250 | a metadata entry, or the default when it is missing |
| Detector.ThreatDetector.constructor | utils/threat_detector.py:10-19 | a fresh detector is loaded exactly when all models load and the metadata (if any) is readable; it holds the models that loaded, and the metadata and its feature names when they loaded |
| Detector.ThreatDetector.LoadModels | utils/threat_detector.py:21-48 | with all three model files present the models are taken. The detector is then loaded unless the metadata file fails to load. Metadata that loads replaces the dict and the feature names. A missing file or a failed load leaves it unloaded. |
| Detector.ThreatDetector.DetectThreats | utils/threat_detector.py:110-192 | the result is the specification `Detection` of the detector's state and the records |
| Detector.ThreatDetector.ModelStats | utils/threat_detector.py:230-253 | the not-loaded error, or the feature count and names, the forest size, and, exactly when there is metadata, its training entries with "Unknown" (model version "1.0") for missing ones |

## Left out

- Python's `\d`, `\w`, `str.isdigit`, `isupper`, `isalnum` and `lower()`, and the case folding of `re.IGNORECASE`, are modelled on ASCII. Non-ASCII digits, letters and folds (such as `ſ` or the Kelvin sign) are not modelled. `\s` and `strip`/`split` use Python's full whitespace set.
- Features.IntOf: accepts only ASCII digit strings, whereas Python's `int()` also takes signs, surrounding whitespace, underscores and non-ASCII digits. The patterns only ever capture digit strings or, as written, `\dd` and `\ddd`, which both reject.
- The text of the `ValueError` is built with plain quotes (`Detector.Describe`). Python's `repr` would double the backslashes of the literal.
- Floating point is modelled as reals. `round(risk_score, 2)` is not modelled, and neither are `float`/`bool`/`str` conversions of the detail fields.
- `threat_types` and the indicator `types` are sets. The order that `list(set(...))` happens to give is not modelled.
- The internals of scikit-learn, pandas and numpy are not part of this model:
  - the scaler, forest and isolation forest are given functions of the matrix;
  - they are assumed to answer one row per input row;
  - the DataFrame and the array are sequences.
- The `IndexError` that `predict_proba(...)[i][1]` would raise for a forest trained on one class is not modelled.
- File-system and JSON I/O in `_load_models` become the `Detector.LoadOutcome` parameter, and the status messages it prints are left out. When a later model file fails after an earlier one loaded, the fields already assigned are not modelled: `LoadFailed` leaves the models unchanged.
- Metadata values are strings, numbers or string lists. A `feature_names` entry that is not a list of strings is taken as absent.
- `datetime.now()` is the `Clock` parameter of the timestamp fallback.
- The `if parsed_log:` test in `parse_logs` always passes, since a record dict is never empty, so it has no counterpart.
- The `len(features) == 0` guard in `detect_threats` cannot be reached, since there is one row per record, so it has no counterpart.
- The catch-all `except` in `detect_threats` is modelled for the errors the model contains: `ValueError` from `int()`, and an error reported by the scaler. Other exceptions (memory, interrupts) are not modelled.
- `rf_estimators` is 0 when there is no forest, which cannot happen while the detector is loaded, so it is not modelled.
- `app.py`, `static/js/app.js` and `utils/data_generator.py` are not part of this model: they are the web layer, the browser UI and random demo data.
