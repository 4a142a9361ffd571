/*
 * The executive-tenure statistics of the fund-manager data: the executives
 * read from the serialised executive list of a manager row, the number of
 * executives each company has employed, ordered by that number, the HTML
 * table of the ranking, and the labels of the ranking chart.
 */
module CompanyStay {
  import opened Wrappers
  import opened Text

  // ----- str.split -----

  /** `s[start:].split(sep)`: the pieces between the occurrences of `sep`, found left to right. */
  function Split(s: string, sep: string, start: nat): (pieces: seq<string>)
    requires |sep| > 0 && start <= |s|
    ensures |pieces| >= 1
    decreases |s| - start
  {
    var p := Find(s, sep, start);
    if p < 0 then [s[start..]] else [s[start..p]] + Split(s, sep, p + |sep|)
  }

  lemma {:induction false} JoinCons(sep: string, a: string, rest: seq<string>)
    requires rest != []
    ensures Join(sep, [a] + rest) == a + sep + Join(sep, rest)
    decreases |rest|
  {
    var all := [a] + rest;
    if |rest| > 1 {
      var m := |rest| - 1;
      assert all[..|all| - 1] == [a] + rest[..m];
      JoinCons(sep, a, rest[..m]);
    } else {
      assert all[..|all| - 1] == [a];
    }
  }

  /** Joining the pieces with the separator gives the string back. */
  lemma {:induction false} SplitJoin(s: string, sep: string, start: nat)
    requires |sep| > 0 && start <= |s|
    ensures Join(sep, Split(s, sep, start)) == s[start..]
    decreases |s| - start
  {
    var p := Find(s, sep, start);
    if p >= 0 {
      var rest := Split(s, sep, p + |sep|);
      calc {
        Join(sep, Split(s, sep, start));
        { assert Split(s, sep, start) == [s[start..p]] + rest; }
        Join(sep, [s[start..p]] + rest);
        { JoinCons(sep, s[start..p], rest); }
        s[start..p] + sep + Join(sep, rest);
        { SplitJoin(s, sep, p + |sep|); }
        s[start..p] + sep + s[p + |sep|..];
        { Rebuild(s, start, p, sep); }
        s[start..];
      }
    } else {
      assert Split(s, sep, start) == [s[start..]];
    }
  }

  lemma Rebuild(s: string, start: nat, p: nat, sep: string)
    requires start <= p && At(s, p, sep)
    ensures s[start..] == s[start..p] + sep + s[p + |sep|..]
  {
    var x, z := s[start..p], s[p + |sep|..];
    assert s[p..] == sep + z;
    assert s[start..] == x + s[p..];
  }

  /** No piece contains the separator. */
  lemma {:induction false} SplitPiecesFree(s: string, sep: string, start: nat, k: nat)
    requires |sep| > 0 && start <= |s| && k < |Split(s, sep, start)|
    ensures Find(Split(s, sep, start)[k], sep, 0) == -1
    decreases |s| - start
  {
    var p := Find(s, sep, start);
    var piece := Split(s, sep, start)[k];
    if k == 0 {
      var e := if p < 0 then |s| else p;
      assert piece == s[start..e];
      forall j | 0 <= j && At(piece, j, sep) ensures false {
        AtInSlice(s, start, e, j, sep);
      }
      FindNone(piece, sep, 0);
    } else {
      SplitPiecesFree(s, sep, p + |sep|, k - 1);
    }
  }

  /** An occurrence inside the slice `s[a..b]` is one in `s`. */
  lemma AtInSlice(s: string, a: nat, b: nat, j: nat, sub: string)
    requires a <= b <= |s| && At(s[a..b], j, sub)
    ensures At(s, a + j, sub) && a + j + |sub| <= b
  {
    var t := s[a..b];
    assert j + |sub| <= |t|;
    var u, w := s[a + j .. a + j + |sub|], t[j .. j + |sub|];
    assert forall k :: 0 <= k < |sub| ==> u[k] == w[k];
    assert u == w;
  }

  /** Nowhere at or after `lo` does `sub` occur, so `Find` reports -1. */
  lemma FindNone(s: string, sub: string, lo: nat)
    requires forall j :: lo <= j ==> !At(s, j, sub)
    ensures Find(s, sub, lo) == -1
  {
  }

  /** `sub in s`. */
  predicate Contains(s: string, sub: string)
  {
    Find(s, sub, 0) >= 0
  }

  // ----- the segments of the executive list -----

  const SegmentSep := "}, {"

  /** A segment with its braces restored: '{' in front unless it starts with one, '}' after unless it ends with one. */
  function Braced(segment: string): (r: string)
    ensures |r| >= 2 && r[0] == '{' && r[|r| - 1] == '}'
    ensures segment != [] && segment[0] == '{' && segment[|segment| - 1] == '}' ==> r == segment
  {
    var a := if segment != [] && segment[0] == '{' then segment else "{" + segment;
    if a[|a| - 1] == '}' then a else a + "}"
  }

  /** The executive list split at every "}, {", each segment with its braces restored. */
  function Segments(jsonStr: string): (segs: seq<string>)
    ensures |segs| == |Split(jsonStr, SegmentSep, 0)|
  {
    var pieces := Split(jsonStr, SegmentSep, 0);
    seq(|pieces|, k requires 0 <= k < |pieces| => Braced(pieces[k]))
  }

  // ----- the field patterns -----

  /** The text in front of a field's value: `"key'": '"`. */
  function FieldOpen(key: string): string
  {
    "\"" + key + "'\": '\""
  }

  const FieldClose := "'\""

  /** The length of the run of characters other than `'` starting at `i`. */
  function NonQuoteRun(s: string, i: nat): (n: nat)
    requires i <= |s|
    ensures i + n <= |s|
    ensures forall k :: i <= k < i + n ==> s[k] != '\''
    ensures i + n < |s| ==> s[i + n] == '\''
    decreases |s| - i
  {
    if i < |s| && s[i] != '\'' then 1 + NonQuoteRun(s, i + 1) else 0
  }

  /**
   * `"key'": '"([^']+)'"` matched at position `i`: the opening, then the
   * longest run of characters other than `'`, which must be non-empty and
   * be followed by `'"`.
   */
  function QuotedAt(s: string, key: string, i: nat): Option<string>
  {
    var open := FieldOpen(key);
    if !At(s, i, open) then None
    else
      var start := i + |open|;
      var n := NonQuoteRun(s, start);
      if n >= 1 && At(s, start + n, FieldClose) then Some(s[start .. start + n]) else None
  }

  /** `re.search(r'"key\'": \'"([^\']+)\'"', s).group(1)`, searching from position `i`. */
  function QuotedField(s: string, key: string, i: nat): (r: Option<string>)
    ensures r.Some? ==> r.value != "" && forall k :: 0 <= k < |r.value| ==> r.value[k] != '\''
    decreases |s| - i
  {
    if i > |s| then None
    else if QuotedAt(s, key, i).Some? then QuotedAt(s, key, i)
    else QuotedField(s, key, i + 1)
  }

  /**
   * The end of the shortest run of characters other than a newline that
   * starts at `i` and is followed by `'"`, or -1 when a newline or the end of
   * the text comes first.
   */
  function LazyEnd(s: string, i: nat): (q: int)
    ensures q == -1 || (i <= q && At(s, q, FieldClose))
    ensures q >= 0 ==> forall k :: i <= k < q ==> s[k] != '\n' && !At(s, k, FieldClose)
    decreases |s| - i
  {
    if i >= |s| || s[i] == '\n' then -1
    else if At(s, i, FieldClose) then i
    else LazyEnd(s, i + 1)
  }

  /** `"key'": '"(.*?)'"` matched at position `i`. */
  function LazyAt(s: string, key: string, i: nat): Option<string>
  {
    var open := FieldOpen(key);
    if !At(s, i, open) then None
    else
      var q := LazyEnd(s, i + |open|);
      if q >= 0 then Some(s[i + |open| .. q]) else None
  }

  /** `re.search(r'"key\'": \'"(.*?)\'"', s).group(1)`, searching from position `i`. */
  function LazyField(s: string, key: string, i: nat): (r: Option<string>)
    ensures r.Some? ==> forall k :: 0 <= k < |r.value| ==> r.value[k] != '\n'
    decreases |s| - i
  {
    if i > |s| then None
    else if LazyAt(s, key, i).Some? then LazyAt(s, key, i)
    else LazyField(s, key, i + 1)
  }

  /** A field written at the front of a text is read back. */
  lemma QuotedFieldRoundTrip(key: string, v: string, rest: string)
    requires v != "" && forall k :: 0 <= k < |v| ==> v[k] != '\''
    ensures QuotedField(FieldOpen(key) + v + FieldClose + rest, key, 0) == Some(v)
  {
    var open := FieldOpen(key);
    var a := open + v;
    var s := a + FieldClose + rest;
    assert s[..|open|] == open;
    assert s[|open| .. |open| + |v|] == v;
    assert s[|a| .. |a| + 2] == FieldClose;
    assert s[|a|] == '\'';
    NonQuoteRunIs(s, |open|, |v|);
    assert QuotedAt(s, key, 0) == Some(v);
  }

  lemma NonQuoteRunIs(s: string, i: nat, n: nat)
    requires i + n < |s| && s[i + n] == '\''
    requires forall k :: i <= k < i + n ==> s[k] != '\''
    ensures NonQuoteRun(s, i) == n
  {
    var m := NonQuoteRun(s, i);
  }

  /** A field whose value has neither a newline nor a quote, written at the front of a text, is read back. */
  lemma LazyFieldRoundTrip(key: string, v: string, rest: string)
    requires forall k :: 0 <= k < |v| ==> v[k] != '\n' && v[k] != '\''
    ensures LazyField(FieldOpen(key) + v + FieldClose + rest, key, 0) == Some(v)
  {
    var open := FieldOpen(key);
    var a := open + v;
    var b := a + FieldClose;
    var s := b + rest;
    assert s[..|open|] == open;
    assert s[|open| .. |open| + |v|] == v;
    assert s[|a| .. |a| + 2] == FieldClose;
    LazyEndIs(s, |open|, |a|);
  }

  lemma {:induction false} LazyEndIs(s: string, i: nat, q: nat)
    requires i <= q && At(s, q, FieldClose)
    requires forall k :: i <= k < q ==> s[k] != '\n' && s[k] != '\''
    ensures LazyEnd(s, i) == q
    decreases q - i
  {
    if i < q {
      NotAtFirstDiffers(s, i, FieldClose);
      LazyEndIs(s, i + 1, q);
    } else {
      AtFirst(s, q, FieldClose);
    }
  }

  /** An occurrence starts with the first character of what occurs. */
  lemma AtFirst(s: string, k: nat, sub: string)
    requires At(s, k, sub) && |sub| > 0
    ensures k < |s| && s[k] == sub[0]
  {
    assert s[k .. k + |sub|][0] == s[k];
  }

  /** Nothing occurs at a position whose character differs from its first. */
  lemma NotAtFirstDiffers(s: string, k: nat, sub: string)
    requires |sub| > 0 && k < |s| && s[k] != sub[0]
    ensures !At(s, k, sub)
  {
    if k + |sub| <= |s| {
      assert s[k .. k + |sub|][0] == s[k];
    }
  }

  // ----- the work entries -----

  /** The length of the run of characters other than braces starting at `i`. */
  function BraceFreeRun(s: string, i: nat): (n: nat)
    requires i <= |s|
    ensures i + n <= |s|
    ensures forall k :: i <= k < i + n ==> s[k] != '{' && s[k] != '}'
    ensures i + n < |s| ==> s[i + n] == '{' || s[i + n] == '}'
    decreases |s| - i
  {
    if i < |s| && s[i] != '{' && s[i] != '}' then 1 + BraceFreeRun(s, i + 1) else 0
  }

  /** `re.findall(r'{([^{}]+)}', s[i:])`: the non-overlapping brace-enclosed runs, left to right. */
  function BracedEntries(s: string, i: nat): (entries: seq<string>)
    requires i <= |s|
    ensures forall e :: e in entries ==> e != "" && forall k :: 0 <= k < |e| ==> e[k] != '{' && e[k] != '}'
    decreases |s| - i
  {
    if i >= |s| then []
    else if s[i] == '{' && BraceFreeRun(s, i + 1) >= 1 && i + 1 + BraceFreeRun(s, i + 1) < |s| && s[i + 1 + BraceFreeRun(s, i + 1)] == '}' then
      var n := BraceFreeRun(s, i + 1);
      [s[i + 1 .. i + 1 + n]] + BracedEntries(s, i + 2 + n)
    else BracedEntries(s, i + 1)
  }

  /** One work record of an executive's history. */
  datatype WorkRecord = WorkRecord(time: string, role: string, company: string, department: string)

  /** A work entry yields a record when its time, role and employer all match; a missing department reads as empty. */
  function ParseWork(entry: string): (r: Option<WorkRecord>)
    ensures r.Some? <==> QuotedField(entry, "时间", 0).Some? && QuotedField(entry, "职务", 0).Some? && LazyField(entry, "任职单位", 0).Some?
    ensures r.Some? ==>
      r.value.time == QuotedField(entry, "时间", 0).value && r.value.role == QuotedField(entry, "职务", 0).value &&
      r.value.company == LazyField(entry, "任职单位", 0).value &&
      r.value.department == (if LazyField(entry, "任职部门", 0).Some? then LazyField(entry, "任职部门", 0).value else "")
  {
    var time := QuotedField(entry, "时间", 0);
    var role := QuotedField(entry, "职务", 0);
    var company := LazyField(entry, "任职单位", 0);
    var dept := LazyField(entry, "任职部门", 0);
    if time.Some? && role.Some? && company.Some? then
      Some(WorkRecord(time.value, role.value, company.value, if dept.Some? then dept.value else ""))
    else None
  }

  /** The records of a work segment, one per entry that yields one, in order. */
  function WorkRecords(entries: seq<string>): (records: seq<WorkRecord>)
    ensures |records| <= |entries|
  {
    if entries == [] then []
    else
      var r := ParseWork(entries[|entries| - 1]);
      WorkRecords(entries[..|entries| - 1]) + (if r.Some? then [r.value] else [])
  }

  // ----- extract_executives_info -----

  const Unknown := "未知"
  const NameMark := "\"姓名"
  const QualificationMark := "\"资格获取方式"
  const HistoryMark := "\"工作履历"

  /** The executive being read: the fields found so far. */
  datatype Current = Current(name: string, position: string, qualification: Option<string>,
                             hasQualification: Option<string>, workRecords: seq<WorkRecord>)

  /** One executive of the result, with the company of the row. */
  datatype Executive = Executive(name: string, position: string, company: string, qualification: string,
                                 hasQualification: string, workRecords: seq<WorkRecord>)

  function OrUnknown(v: Option<string>): string
  {
    if v.Some? then v.value else Unknown
  }

  /** The executive as it is appended to the result, a missing field reading as "未知". */
  function Emit(cur: Current, companyName: string): Executive
  {
    Executive(cur.name, cur.position, companyName, OrUnknown(cur.qualification), OrUnknown(cur.hasQualification), cur.workRecords)
  }

  /** A segment holding a name opens a new executive, with its name and position or "未知". */
  function Open(segment: string): Current
  {
    Current(OrUnknown(QuotedField(segment, "姓名", 0)), OrUnknown(QuotedField(segment, "职务", 0)), None, None, [])
  }

  /** A qualification segment sets whichever of the two qualification fields it holds. */
  function Qualify(cur: Current, segment: string): Current
  {
    var q := QuotedField(segment, "资格获取方式", 0);
    var h := QuotedField(segment, "是否有基金从业资格", 0);
    cur.(qualification := if q.Some? then q else cur.qualification,
         hasQualification := if h.Some? then h else cur.hasQualification)
  }

  /**
   * One segment of the loop: a name segment emits the executive being read
   * and opens the next; a qualification or a work-history segment updates the
   * executive being read, and is ignored before the first name.
   */
  function Visit(exs: seq<Executive>, cur: Option<Current>, segment: string, companyName: string): (seq<Executive>, Option<Current>)
  {
    if Contains(segment, NameMark) then
      (exs + (if cur.Some? then [Emit(cur.value, companyName)] else []), Some(Open(segment)))
    else if Contains(segment, QualificationMark) && cur.Some? then
      (exs, Some(Qualify(cur.value, segment)))
    else if Contains(segment, HistoryMark) && cur.Some? then
      (exs, Some(cur.value.(workRecords := cur.value.workRecords + WorkRecords(BracedEntries(segment, 0)))))
    else (exs, cur)
  }

  /** The loop over the segments: the executives emitted and the one being read. */
  function Run(segs: seq<string>, companyName: string): (seq<Executive>, Option<Current>)
  {
    if segs == [] then ([], None)
    else
      var prev := Run(segs[..|segs| - 1], companyName);
      Visit(prev.0, prev.1, segs[|segs| - 1], companyName)
  }

  /**
   * `extract_executives_info(row)` with `row[1]` the company and `row[-1]`
   * the executive list; a list that is not a string makes `split` raise, and
   * the handler returns what was collected, which is nothing.
   */
  function Executives(companyName: string, jsonStr: Option<string>): seq<Executive>
  {
    if jsonStr.None? then []
    else
      var (exs, cur) := Run(Segments(jsonStr.value), companyName);
      exs + (if cur.Some? then [Emit(cur.value, companyName)] else [])
  }

  /** The inner loop of a work segment: each entry's record, when it yields one, is appended. */
  method AppendWorkRecords(records: seq<WorkRecord>, workEntries: seq<string>) returns (result: seq<WorkRecord>)
    ensures result == records + WorkRecords(workEntries)
  {
    result := records;
    for j := 0 to |workEntries|
      invariant result == records + WorkRecords(workEntries[..j])
    {
      assert workEntries[..j + 1][..j] == workEntries[..j];
      var r := ParseWork(workEntries[j]);
      if r.Some? {
        result := result + [r.value];
      }
    }
    assert workEntries[..|workEntries|] == workEntries;
  }

  /** The body of the segment loop, on a segment whose braces were restored. */
  method VisitSegment(exs: seq<Executive>, cur: Option<Current>, segment: string, companyName: string)
    returns (executives: seq<Executive>, currentExec: Option<Current>)
    ensures (executives, currentExec) == Visit(exs, cur, segment, companyName)
  {
    executives, currentExec := exs, cur;
    if Contains(segment, NameMark) {
      if currentExec.Some? {
        executives := executives + [Emit(currentExec.value, companyName)];
      } else {
        assert executives + [] == executives;
      }
      currentExec := Some(Open(segment));
    } else if Contains(segment, QualificationMark) && currentExec.Some? {
      currentExec := Some(Qualify(currentExec.value, segment));
    } else if Contains(segment, HistoryMark) && currentExec.Some? {
      var records := AppendWorkRecords(currentExec.value.workRecords, BracedEntries(segment, 0));
      currentExec := Some(currentExec.value.(workRecords := records));
    }
  }

  /** `extract_executives_info`: the segment loop with the executive being read, then the last executive. */
  method ExtractExecutivesInfo(companyName: string, jsonStr: Option<string>) returns (executives: seq<Executive>)
    ensures executives == Executives(companyName, jsonStr)
  {
    executives := [];
    if jsonStr.None? {
      return;
    }
    var segments := Split(jsonStr.value, SegmentSep, 0);
    ghost var fixed := Segments(jsonStr.value);
    var currentExec: Option<Current> := None;
    for i := 0 to |segments|
      invariant (executives, currentExec) == Run(fixed[..i], companyName)
    {
      var segment := RestoreBraces(segments[i]);
      RunSnoc(fixed, i, companyName);
      executives, currentExec := VisitSegment(executives, currentExec, segment, companyName);
    }
    assert fixed[..|segments|] == fixed;
    ExecutivesOfRun(companyName, jsonStr.value);
    if currentExec.Some? {
      executives := executives + [Emit(currentExec.value, companyName)];
    } else {
      assert executives + [] == executives;
    }
  }

  /** A segment of the split with its braces restored, as the loop does it. */
  method RestoreBraces(piece: string) returns (segment: string)
    ensures segment == Braced(piece)
  {
    segment := piece;
    if !(segment != [] && segment[0] == '{') {
      segment := "{" + segment;
    }
    if segment[|segment| - 1] != '}' {
      segment := segment + "}";
    }
  }

  /** One more turn of the segment loop. */
  lemma RunSnoc(segs: seq<string>, i: nat, companyName: string)
    requires i < |segs|
    ensures var prev := Run(segs[..i], companyName); Run(segs[..i + 1], companyName) == Visit(prev.0, prev.1, segs[i], companyName)
  {
    assert segs[..i + 1][..i] == segs[..i];
  }

  /** The executives of a list: those the loop emitted, then the one it was still reading. */
  lemma ExecutivesOfRun(companyName: string, jsonStr: string)
    ensures var run := Run(Segments(jsonStr), companyName);
      Executives(companyName, Some(jsonStr)) == run.0 + (if run.1.Some? then [Emit(run.1.value, companyName)] else [])
  {
  }

  /** The segments holding a name, in order. */
  function NameSegments(segs: seq<string>): seq<string>
  {
    if segs == [] then []
    else NameSegments(segs[..|segs| - 1]) + (if Contains(segs[|segs| - 1], NameMark) then [segs[|segs| - 1]] else [])
  }

  /** The executive read from a name segment has that segment's name and position. */
  predicate NamedBy(name: string, position: string, segment: string)
  {
    name == OrUnknown(QuotedField(segment, "姓名", 0)) && position == OrUnknown(QuotedField(segment, "职务", 0))
  }

  lemma {:induction false} RunFollowsNames(segs: seq<string>, companyName: string)
    ensures var (exs, cur) := Run(segs, companyName);
      var names := NameSegments(segs);
      (cur.None? <==> names == []) &&
      |exs| + (if cur.Some? then 1 else 0) == |names| &&
      (forall k :: 0 <= k < |exs| ==> exs[k].company == companyName && NamedBy(exs[k].name, exs[k].position, names[k])) &&
      (cur.Some? ==> NamedBy(cur.value.name, cur.value.position, names[|names| - 1]))
  {
    if segs != [] {
      var init := segs[..|segs| - 1];
      var seg := segs[|segs| - 1];
      RunFollowsNames(init, companyName);
      var (exs0, cur0) := Run(init, companyName);
      var names0 := NameSegments(init);
      var (exs, cur) := Run(segs, companyName);
      var names := NameSegments(segs);
      if Contains(seg, NameMark) {
        assert names == names0 + [seg];
        if cur0.Some? {
          assert exs == exs0 + [Emit(cur0.value, companyName)];
        } else {
          assert exs == exs0;
        }
        forall k | 0 <= k < |exs| ensures exs[k].company == companyName && NamedBy(exs[k].name, exs[k].position, names[k]) {
          if k < |exs0| {
            assert exs[k] == exs0[k] && names[k] == names0[k];
          }
        }
      } else {
        assert names == names0 && exs == exs0;
      }
    }
  }

  /**
   * One executive per segment holding a name, in order, each with the row's
   * company and the name and position of its segment or "未知"; qualification
   * and work segments before the first name add nothing.
   */
  lemma ExecutivesFollowNames(companyName: string, jsonStr: string)
    ensures var exs := Executives(companyName, Some(jsonStr));
      var names := NameSegments(Segments(jsonStr));
      |exs| == |names| &&
      forall k :: 0 <= k < |exs| ==> exs[k].company == companyName && NamedBy(exs[k].name, exs[k].position, names[k])
  {
    var segs := Segments(jsonStr);
    RunFollowsNames(segs, companyName);
    var run := Run(segs, companyName);
    var names := NameSegments(segs);
    var exs := run.0 + (if run.1.Some? then [Emit(run.1.value, companyName)] else []);
    assert Executives(companyName, Some(jsonStr)) == exs;
    forall k | 0 <= k < |exs| ensures exs[k].company == companyName && NamedBy(exs[k].name, exs[k].position, names[k]) {
      if k < |run.0| {
        assert exs[k] == run.0[k];
      }
    }
  }

  /** Before the first name segment nothing is collected and nothing is being read. */
  lemma {:induction false} NoNameNoRun(segs: seq<string>, companyName: string)
    requires forall k :: 0 <= k < |segs| ==> !Contains(segs[k], NameMark)
    ensures Run(segs, companyName) == ([], None)
  {
    if segs != [] {
      NoNameNoRun(segs[..|segs| - 1], companyName);
    }
  }

  /** A field value as the patterns read it: "未知", or a non-empty run of characters other than `'`. */
  predicate FieldValue(v: string)
  {
    v == Unknown || (v != "" && forall k :: 0 <= k < |v| ==> v[k] != '\'')
  }

  /** A record read by the patterns: a non-empty time and role without `'`, employer and department without newlines. */
  predicate RecordRead(r: WorkRecord)
  {
    r.time != "" && r.role != "" &&
    (forall k :: 0 <= k < |r.time| ==> r.time[k] != '\'') &&
    (forall k :: 0 <= k < |r.role| ==> r.role[k] != '\'') &&
    (forall k :: 0 <= k < |r.company| ==> r.company[k] != '\n') &&
    (forall k :: 0 <= k < |r.department| ==> r.department[k] != '\n')
  }

  predicate CurrentRead(c: Current)
  {
    FieldValue(c.name) && FieldValue(c.position) &&
    (c.qualification.Some? ==> FieldValue(c.qualification.value)) &&
    (c.hasQualification.Some? ==> FieldValue(c.hasQualification.value)) &&
    forall i :: 0 <= i < |c.workRecords| ==> RecordRead(c.workRecords[i])
  }

  predicate ExecutiveRead(e: Executive)
  {
    FieldValue(e.name) && FieldValue(e.position) && FieldValue(e.qualification) && FieldValue(e.hasQualification) &&
    forall i :: 0 <= i < |e.workRecords| ==> RecordRead(e.workRecords[i])
  }

  lemma {:induction false} WorkRecordsRead(entries: seq<string>)
    ensures forall i :: 0 <= i < |WorkRecords(entries)| ==> RecordRead(WorkRecords(entries)[i])
  {
    if entries != [] {
      WorkRecordsRead(entries[..|entries| - 1]);
      var prev := WorkRecords(entries[..|entries| - 1]);
      var r := ParseWork(entries[|entries| - 1]);
      var all := WorkRecords(entries);
      forall i | 0 <= i < |all| ensures RecordRead(all[i]) {
        if i < |prev| {
          assert all[i] == prev[i];
        }
      }
    }
  }

  lemma VisitRead(exs: seq<Executive>, cur: Option<Current>, segment: string, companyName: string)
    requires forall i :: 0 <= i < |exs| ==> ExecutiveRead(exs[i])
    requires cur.Some? ==> CurrentRead(cur.value)
    ensures var (exs', cur') := Visit(exs, cur, segment, companyName);
      (forall i :: 0 <= i < |exs'| ==> ExecutiveRead(exs'[i])) && (cur'.Some? ==> CurrentRead(cur'.value))
  {
    var (exs', cur') := Visit(exs, cur, segment, companyName);
    if Contains(segment, NameMark) {
      forall i | 0 <= i < |exs'| ensures ExecutiveRead(exs'[i]) {
        if i < |exs| {
          assert exs'[i] == exs[i];
        }
      }
    } else if !Contains(segment, QualificationMark) && Contains(segment, HistoryMark) && cur.Some? {
      var added := WorkRecords(BracedEntries(segment, 0));
      WorkRecordsRead(BracedEntries(segment, 0));
      var all := cur.value.workRecords + added;
      forall i | 0 <= i < |all| ensures RecordRead(all[i]) {
        if i >= |cur.value.workRecords| {
          assert all[i] == added[i - |cur.value.workRecords|];
        }
      }
    }
  }

  lemma {:induction false} RunRead(segs: seq<string>, companyName: string)
    ensures var (exs, cur) := Run(segs, companyName);
      (forall i :: 0 <= i < |exs| ==> ExecutiveRead(exs[i])) && (cur.Some? ==> CurrentRead(cur.value))
  {
    if segs != [] {
      RunRead(segs[..|segs| - 1], companyName);
      var prev := Run(segs[..|segs| - 1], companyName);
      VisitRead(prev.0, prev.1, segs[|segs| - 1], companyName);
    }
  }

  /**
   * Every field of every executive is "未知" or a value the patterns read;
   * every work record has a non-empty time and role, and was read from an
   * entry where time, role and employer all matched.
   */
  lemma ExecutivesRead(companyName: string, jsonStr: Option<string>)
    ensures forall i :: 0 <= i < |Executives(companyName, jsonStr)| ==> ExecutiveRead(Executives(companyName, jsonStr)[i])
  {
    if jsonStr.Some? {
      RunRead(Segments(jsonStr.value), companyName);
      var (exs, cur) := Run(Segments(jsonStr.value), companyName);
      var all := Executives(companyName, jsonStr);
      forall i | 0 <= i < |all| ensures ExecutiveRead(all[i]) {
        if i < |exs| {
          assert all[i] == exs[i];
        }
      }
    }
  }

  // ----- count_companies -----

  /** (company, number of records) pairs; as a dict, in the order the companies were first seen. */
  type Counts = seq<(string, int)>

  /** The employers of a list of work records, in order. */
  function RecordCompanies(records: seq<WorkRecord>): (r: seq<string>)
    ensures |r| == |records|
  {
    if records == [] then [] else RecordCompanies(records[..|records| - 1]) + [records[|records| - 1].company]
  }

  /** The employers of every work record of every executive, in order. */
  function Employers(execs: seq<Executive>): seq<string>
  {
    if execs == [] then [] else Employers(execs[..|execs| - 1]) + RecordCompanies(execs[|execs| - 1].workRecords)
  }

  /** The companies of a counter, in order. */
  function Keys(counts: Counts): (r: seq<string>)
    ensures |r| == |counts| && forall k :: 0 <= k < |r| ==> r[k] == counts[k].0
  {
    seq(|counts|, k requires 0 <= k < |counts| => counts[k].0)
  }

  /** The position of `c` among the companies, at or after `i`, or -1. */
  function KeyPos(counts: Counts, c: string, i: nat): (r: int)
    requires i <= |counts|
    ensures r == -1 || (i <= r < |counts| && counts[r].0 == c)
    ensures forall k :: i <= k < |counts| && (r == -1 || k < r) ==> counts[k].0 != c
    decreases |counts| - i
  {
    if i == |counts| then -1 else if counts[i].0 == c then i else KeyPos(counts, c, i + 1)
  }

  /** `company_counts.get(c, 0)`. */
  function Count(counts: Counts, c: string): int
  {
    var i := KeyPos(counts, c, 0);
    if i < 0 then 0 else counts[i].1
  }

  /** `company_counts[c] = company_counts.get(c, 0) + 1`. */
  function Bump(counts: Counts, c: string): Counts
  {
    var i := KeyPos(counts, c, 0);
    if i < 0 then counts + [(c, 1)] else counts[i := (c, counts[i].1 + 1)]
  }

  /** The counter after the given employers, skipping empty ones. */
  function Tally(names: seq<string>): Counts
  {
    if names == [] then []
    else
      var t := Tally(names[..|names| - 1]);
      var c := names[|names| - 1];
      if c != "" then Bump(t, c) else t
  }

  /** The number of occurrences of `c` in `names`. */
  function Occurrences(names: seq<string>, c: string): nat
  {
    multiset(names)[c]
  }

  /** The number of non-empty employers. */
  function Counted(names: seq<string>): nat
  {
    if names == [] then 0 else Counted(names[..|names| - 1]) + (if names[|names| - 1] != "" then 1 else 0)
  }

  /** The position of the first occurrence of `c` in `names`. */
  function FirstIndex(names: seq<string>, c: string): (r: nat)
    requires c in names
    ensures r < |names| && names[r] == c && forall k :: 0 <= k < r ==> names[k] != c
  {
    if names[0] == c then 0 else 1 + FirstIndex(names[1..], c)
  }

  /** The sum of the counts. */
  function Sum(counts: Counts): int
  {
    if counts == [] then 0 else Sum(counts[..|counts| - 1]) + counts[|counts| - 1].1
  }

  predicate Unique(keys: seq<string>)
  {
    forall i, j :: 0 <= i < j < |keys| ==> keys[i] != keys[j]
  }

  lemma KeyPosFinds(counts: Counts, c: string)
    ensures KeyPos(counts, c, 0) >= 0 <==> c in Keys(counts)
  {
    if c in Keys(counts) {
      var k :| 0 <= k < |counts| && Keys(counts)[k] == c;
      assert counts[k].0 == c;
    }
  }

  lemma KeyPosSameKeys(t: Counts, u: Counts, c: string, i: nat)
    requires i <= |t| && Keys(t) == Keys(u)
    ensures KeyPos(t, c, i) == KeyPos(u, c, i)
    decreases |t| - i
  {
    if i < |t| {
      assert t[i].0 == Keys(t)[i] == u[i].0;
      KeyPosSameKeys(t, u, c, i + 1);
    }
  }

  lemma KeyPosAppend(t: Counts, e: (string, int), c: string)
    ensures KeyPos(t + [e], c, 0) ==
      if KeyPos(t, c, 0) >= 0 then KeyPos(t, c, 0) else if e.0 == c then |t| else -1
  {
    var r := KeyPos(t + [e], c, 0);
    var p := KeyPos(t, c, 0);
    if p >= 0 {
      assert (t + [e])[p] == t[p];
    } else {
      assert (t + [e])[|t|] == e;
    }
  }

  /** A new company joins the counter at the end; an old one keeps its place. */
  lemma BumpKeys(t: Counts, c: string)
    ensures Keys(Bump(t, c)) == if c in Keys(t) then Keys(t) else Keys(t) + [c]
  {
    KeyPosFinds(t, c);
    var i := KeyPos(t, c, 0);
    if i < 0 {
      assert (t + [(c, 1)])[..|t|] == t;
    } else {
      var u := t[i := (c, t[i].1 + 1)];
      assert Keys(u) == Keys(t);
    }
  }

  /** Bumping `c` adds one to its count and leaves every other count alone. */
  lemma BumpCount(t: Counts, c: string, x: string)
    ensures Count(Bump(t, c), x) == Count(t, x) + (if x == c then 1 else 0)
  {
    var i := KeyPos(t, c, 0);
    if i < 0 {
      KeyPosAppend(t, (c, 1), x);
    } else {
      var u := t[i := (c, t[i].1 + 1)];
      assert Keys(u) == Keys(t);
      KeyPosSameKeys(t, u, x, 0);
    }
  }

  lemma SumUpdate(t: Counts, i: nat, e: (string, int))
    requires i < |t|
    ensures Sum(t[i := e]) == Sum(t) - t[i].1 + e.1
    decreases |t|
  {
    var m := |t| - 1;
    if i < m {
      assert t[i := e][..m] == t[..m][i := e];
      SumUpdate(t[..m], i, e);
    } else {
      assert t[i := e][..m] == t[..m];
    }
  }

  lemma BumpSum(t: Counts, c: string)
    ensures Sum(Bump(t, c)) == Sum(t) + 1
  {
    var i := KeyPos(t, c, 0);
    if i < 0 {
      assert (t + [(c, 1)])[..|t|] == t;
    } else {
      SumUpdate(t, i, (c, t[i].1 + 1));
    }
  }

  /** The counter's companies are distinct, non-empty, and exactly the non-empty employers. */
  lemma {:induction false} TallyKeys(names: seq<string>)
    ensures Unique(Keys(Tally(names)))
    ensures forall c :: c in Keys(Tally(names)) <==> c != "" && c in names
  {
    if names != [] {
      var init, c := names[..|names| - 1], names[|names| - 1];
      assert names == init + [c];
      TallyKeys(init);
      if c != "" {
        BumpKeys(Tally(init), c);
      }
    }
  }

  /** Every company's count is its number of records; an empty name is never counted. */
  lemma {:induction false} TallyCounts(names: seq<string>, x: string)
    ensures Count(Tally(names), x) == if x == "" then 0 else Occurrences(names, x)
  {
    if names != [] {
      var init, c := names[..|names| - 1], names[|names| - 1];
      assert names == init + [c];
      assert multiset(names) == multiset(init) + multiset{c};
      TallyCounts(init, x);
      if c != "" {
        BumpCount(Tally(init), c, x);
      }
    }
  }

  /** The counts add up to the number of records with an employer. */
  lemma {:induction false} TallySum(names: seq<string>)
    ensures Sum(Tally(names)) == Counted(names)
  {
    if names != [] {
      var init, c := names[..|names| - 1], names[|names| - 1];
      TallySum(init);
      if c != "" {
        BumpSum(Tally(init), c);
      }
    }
  }

  lemma FirstIndexExtend(names: seq<string>, c: string, x: string)
    requires c in names
    ensures c in names + [x] && FirstIndex(names + [x], c) == FirstIndex(names, c)
  {
    var r := FirstIndex(names, c);
    var r' := FirstIndex(names + [x], c);
    assert (names + [x])[r] == c;
    assert r' == |names| || names[r'] == c;
  }

  /** The companies stand in the order of their first record, as a dict keeps them. */
  lemma {:induction false} TallyOrder(names: seq<string>)
    ensures forall c | c in Keys(Tally(names)) :: c in names
    ensures forall i, j :: 0 <= i < j < |Tally(names)| ==>
      FirstIndex(names, Keys(Tally(names))[i]) < FirstIndex(names, Keys(Tally(names))[j])
  {
    if names != [] {
      var init, c := names[..|names| - 1], names[|names| - 1];
      assert names == init + [c];
      TallyOrder(init);
      TallyKeys(init);
      if c != "" {
        BumpKeys(Tally(init), c);
      }
      OrderExtends(init, c, Keys(Tally(init)), Keys(Tally(names)));
    }
  }

  lemma OrderExtends(init: seq<string>, c: string, keys0: seq<string>, keys: seq<string>)
    requires forall x | x in keys0 :: x in init
    requires forall i, j :: 0 <= i < j < |keys0| ==> FirstIndex(init, keys0[i]) < FirstIndex(init, keys0[j])
    requires keys == keys0 || (keys == keys0 + [c] && c !in init)
    ensures forall x | x in keys :: x in init + [c]
    ensures forall i, j :: 0 <= i < j < |keys| ==>
      FirstIndex(init + [c], keys[i]) < FirstIndex(init + [c], keys[j])
  {
    var names := init + [c];
    forall k | 0 <= k < |keys0|
      ensures keys0[k] in names && FirstIndex(names, keys0[k]) == FirstIndex(init, keys0[k]) < |init|
    {
      FirstIndexExtend(init, keys0[k], c);
    }
    if keys != keys0 {
      var f := FirstIndex(names, c);
      assert names[f] == c;
      assert f == |init|;
    }
    forall i, j | 0 <= i < j < |keys|
      ensures FirstIndex(names, keys[i]) < FirstIndex(names, keys[j])
    {
      if j >= |keys0| {
        assert keys[j] == c;
      }
    }
  }

  /** The first entry from `lo` on with company `c` is the one at `i`. */
  lemma KeyPosAt(t: Counts, c: string, lo: nat, i: nat)
    requires lo <= i < |t| && t[i].0 == c
    requires forall k :: lo <= k < i ==> t[k].0 != c
    ensures KeyPos(t, c, lo) == i
    decreases i - lo
  {
    if lo < i {
      KeyPosAt(t, c, lo + 1, i);
    }
  }

  /** An entry's count is the count of its company when the companies are distinct. */
  lemma CountAt(t: Counts, i: nat)
    requires Unique(Keys(t)) && i < |t|
    ensures Count(t, t[i].0) == t[i].1
  {
    NoEarlierKey(t, i);
    KeyPosAt(t, t[i].0, 0, i);
  }

  lemma NoEarlierKey(t: Counts, i: nat)
    requires Unique(Keys(t)) && i < |t|
    ensures forall k :: 0 <= k < i ==> t[k].0 != t[i].0
  {
    forall k | 0 <= k < i ensures t[k].0 != t[i].0 {
      assert Keys(t)[k] != Keys(t)[i];
    }
  }

  // ----- ordering by count -----

  /** `sorted(..., key=count, reverse=True)` places `e` after every entry whose count is at least its own. */
  function InsertDesc(sorted: Counts, e: (string, int)): Counts
  {
    if sorted == [] then [e]
    else if sorted[0].1 >= e.1 then [sorted[0]] + InsertDesc(sorted[1..], e)
    else [e] + sorted
  }

  /** The stable sort by descending count, as `sorted(..., reverse=True)` does it. */
  function SortDesc(s: Counts): Counts
  {
    if s == [] then [] else InsertDesc(SortDesc(s[..|s| - 1]), s[|s| - 1])
  }

  predicate Descending(s: Counts)
  {
    forall i, j :: 0 <= i < j < |s| ==> s[i].1 >= s[j].1
  }

  /** The entries with count `v`, in order. */
  function With(s: Counts, v: int): Counts
  {
    if s == [] then [] else (if s[0].1 == v then [s[0]] else []) + With(s[1..], v)
  }

  lemma {:induction false} WithAppend(a: Counts, b: Counts, v: int)
    ensures With(a + b, v) == With(a, v) + With(b, v)
  {
    if a != [] {
      assert (a + b)[1..] == a[1..] + b;
      WithAppend(a[1..], b, v);
    } else {
      assert a + b == b;
    }
  }

  lemma {:induction false} WithNone(s: Counts, v: int)
    requires forall k :: 0 <= k < |s| ==> s[k].1 != v
    ensures With(s, v) == []
  {
    if s != [] {
      WithNone(s[1..], v);
    }
  }

  lemma {:induction false} InsertDescMultiset(t: Counts, e: (string, int))
    ensures multiset(InsertDesc(t, e)) == multiset(t) + multiset{e}
  {
    if t != [] && t[0].1 >= e.1 {
      InsertDescMultiset(t[1..], e);
      assert t == [t[0]] + t[1..];
    }
  }

  lemma {:induction false} InsertDescDescending(t: Counts, e: (string, int))
    requires Descending(t)
    ensures Descending(InsertDesc(t, e))
  {
    if t != [] && t[0].1 >= e.1 {
      var tail := InsertDesc(t[1..], e);
      InsertDescDescending(t[1..], e);
      InsertDescBounded(t[1..], e, t[0].1);
      var r := InsertDesc(t, e);
      assert r == [t[0]] + tail;
      forall i, j | 0 <= i < j < |r| ensures r[i].1 >= r[j].1 {
        if i == 0 {
          assert r[j] == tail[j - 1];
        } else {
          assert r[i] == tail[i - 1] && r[j] == tail[j - 1];
        }
      }
    }
  }

  /** Inserting an entry under a bound into entries under it keeps every entry under it. */
  lemma {:induction false} InsertDescBounded(t: Counts, e: (string, int), b: int)
    requires forall k :: 0 <= k < |t| ==> t[k].1 <= b
    requires e.1 <= b
    ensures forall k :: 0 <= k < |InsertDesc(t, e)| ==> InsertDesc(t, e)[k].1 <= b
  {
    var r := InsertDesc(t, e);
    if t != [] && t[0].1 >= e.1 {
      var tail := InsertDesc(t[1..], e);
      InsertDescBounded(t[1..], e, b);
      assert r == [t[0]] + tail;
      forall k | 0 <= k < |r| ensures r[k].1 <= b {
        if k > 0 {
          assert r[k] == tail[k - 1];
        }
      }
    } else if t != [] {
      assert r == [e] + t;
      forall k | 0 <= k < |r| ensures r[k].1 <= b {
        if k > 0 {
          assert r[k] == t[k - 1];
        }
      }
    }
  }

  lemma {:induction false} InsertDescWith(t: Counts, e: (string, int), v: int)
    requires Descending(t)
    ensures With(InsertDesc(t, e), v) == With(t, v) + (if e.1 == v then [e] else [])
  {
    if t == [] {
    } else if t[0].1 >= e.1 {
      InsertDescWith(t[1..], e, v);
      assert ([t[0]] + InsertDesc(t[1..], e))[1..] == InsertDesc(t[1..], e);
    } else {
      if e.1 == v {
        WithNone(t, v);
      }
      assert ([e] + t)[1..] == t;
    }
  }

  /** The sorted list is in descending count order and holds exactly the same entries. */
  lemma {:induction false} SortDescSorted(s: Counts)
    ensures Descending(SortDesc(s)) && multiset(SortDesc(s)) == multiset(s)
  {
    if s != [] {
      var init := s[..|s| - 1];
      SortDescSorted(init);
      InsertDescMultiset(SortDesc(init), s[|s| - 1]);
      InsertDescDescending(SortDesc(init), s[|s| - 1]);
      assert s == init + [s[|s| - 1]];
    }
  }

  /** Entries with the same count keep their order: the sort is stable. */
  lemma {:induction false} SortDescStable(s: Counts, v: int)
    ensures With(SortDesc(s), v) == With(s, v)
  {
    if s != [] {
      var init, e := s[..|s| - 1], s[|s| - 1];
      SortDescStable(init, v);
      SortDescSorted(init);
      InsertDescWith(SortDesc(init), e, v);
      assert s == init + [e];
      WithAppend(init, [e], v);
      assert [e][1..] == [];
    }
  }

  /** `count_companies`: the employers counted, most frequent first. */
  function CompanyCounts(execs: seq<Executive>): Counts
  {
    SortDesc(Tally(Employers(execs)))
  }

  /**
   * Every entry is a non-empty employer with its number of records, every
   * non-empty employer has exactly one entry, the counts descend, and they add
   * up to the number of records with an employer.
   */
  lemma CompanyCountsShape(execs: seq<Executive>)
    ensures var r := CompanyCounts(execs); var names := Employers(execs);
      Descending(r) &&
      (forall i :: 0 <= i < |r| ==> r[i].0 != "" && r[i].1 == Occurrences(names, r[i].0)) &&
      (forall i, j :: 0 <= i < j < |r| ==> r[i].0 != r[j].0) &&
      (forall c :: c in names && c != "" ==> exists i :: 0 <= i < |r| && r[i].0 == c) &&
      Sum(r) == Counted(names)
  {
    var names := Employers(execs);
    var t := Tally(names);
    var r := CompanyCounts(execs);
    SortDescSorted(t);
    TallyKeys(names);
    TallySum(names);
    SortDescSum(t);
    forall i | 0 <= i < |r| ensures exists j :: 0 <= j < |t| && t[j] == r[i] {
      assert r[i] in multiset(t);
    }
    forall i | 0 <= i < |r| ensures r[i].0 != "" && r[i].1 == Occurrences(names, r[i].0) {
      var j :| 0 <= j < |t| && t[j] == r[i];
      assert Keys(t)[j] in Keys(t);
      CountAt(t, j);
      TallyCounts(names, t[j].0);
    }
    forall i, j | 0 <= i < j < |r| ensures r[i].0 != r[j].0 {
      if r[i].0 == r[j].0 {
        assert r[i].1 == Occurrences(names, r[i].0) == r[j].1;
        assert r[i] == r[j];
        DuplicateCount(r, i, j);
        assert multiset(t)[r[i]] >= 2;
        UniqueOnce(t, r[i]);
      }
    }
    forall c | c in names && c != "" ensures exists i :: 0 <= i < |r| && r[i].0 == c {
      var j :| 0 <= j < |Keys(t)| && Keys(t)[j] == c;
      assert t[j] in multiset(r);
    }
  }

  /** The sum read from the front. */
  lemma {:induction false} SumCons(e: (string, int), s: Counts)
    ensures Sum([e] + s) == e.1 + Sum(s)
  {
    if s != [] {
      var init := s[..|s| - 1];
      assert ([e] + s)[..|s|] == [e] + init;
      SumCons(e, init);
    }
  }

  /** Inserting an entry adds its count to the sum. */
  lemma {:induction false} InsertDescSum(sorted: Counts, e: (string, int))
    ensures Sum(InsertDesc(sorted, e)) == Sum(sorted) + e.1
  {
    if sorted == [] {
      SumCons(e, []);
    } else if sorted[0].1 >= e.1 {
      InsertDescSum(sorted[1..], e);
      SumCons(sorted[0], InsertDesc(sorted[1..], e));
      SumCons(sorted[0], sorted[1..]);
      assert [sorted[0]] + sorted[1..] == sorted;
    } else {
      SumCons(e, sorted);
    }
  }

  /** Sorting keeps the sum of the counts. */
  lemma {:induction false} SortDescSum(s: Counts)
    ensures Sum(SortDesc(s)) == Sum(s)
  {
    if s != [] {
      SortDescSum(s[..|s| - 1]);
      InsertDescSum(SortDesc(s[..|s| - 1]), s[|s| - 1]);
    }
  }

  lemma DuplicateCount(r: Counts, i: nat, j: nat)
    requires i < j < |r| && r[i] == r[j]
    ensures multiset(r)[r[i]] >= 2
  {
    assert r == r[..i] + [r[i]] + r[i + 1..j] + [r[j]] + r[j + 1..];
  }

  lemma {:induction false} UniqueOnce(t: Counts, e: (string, int))
    requires Unique(Keys(t))
    ensures multiset(t)[e] <= 1
  {
    if t != [] {
      var init := t[..|t| - 1];
      assert Keys(init) == Keys(t)[..|t| - 1];
      UniqueOnce(init, e);
      assert t == init + [t[|t| - 1]];
      forall k | 0 <= k < |init| ensures init[k] != t[|t| - 1] {
        assert Keys(t)[k] != Keys(t)[|t| - 1];
      }
    }
  }

  /** Counts one executive's records into the counter. */
  method TallyRecords(counts: Counts, ghost names: seq<string>, records: seq<WorkRecord>) returns (updated: Counts)
    requires counts == Tally(names)
    ensures updated == Tally(names + RecordCompanies(records))
  {
    updated := counts;
    assert names + RecordCompanies(records[..0]) == names;
    for w := 0 to |records|
      invariant updated == Tally(names + RecordCompanies(records[..w]))
    {
      var company := records[w].company;
      ghost var seen := names + RecordCompanies(records[..w]);
      assert records[..w + 1][..w] == records[..w];
      assert names + RecordCompanies(records[..w + 1]) == seen + [company];
      assert (seen + [company])[..|seen|] == seen;
      if company != "" {
        updated := Bump(updated, company);
      }
    }
    assert records[..|records|] == records;
  }

  /** `count_companies`: counts every executive's records by employer and sorts by count. */
  method CountCompanies(allExecutives: seq<Executive>) returns (sortedCompanies: Counts)
    ensures sortedCompanies == CompanyCounts(allExecutives)
  {
    var companyCounts: Counts := [];
    for e := 0 to |allExecutives|
      invariant companyCounts == Tally(Employers(allExecutives[..e]))
    {
      assert allExecutives[..e + 1][..e] == allExecutives[..e];
      companyCounts := TallyRecords(companyCounts, Employers(allExecutives[..e]), allExecutives[e].workRecords);
    }
    assert allExecutives[..|allExecutives|] == allExecutives;
    sortedCompanies := SortDesc(companyCounts);
  }

  // ----- plot_companies -----

  /** The longest company name a bar label shows in full. */
  const LabelWidth := 15

  /** Python's `data[:n]`, where a negative `n` counts from the end. */
  function Top(data: Counts, n: int): (r: Counts)
    ensures r <= data
    ensures |r| == if n >= 0 then (if n <= |data| then n else |data|) else (if |data| + n >= 0 then |data| + n else 0)
  {
    if n >= 0 then data[..if n <= |data| then n else |data|]
    else data[..if |data| + n >= 0 then |data| + n else 0]
  }

  /**
   * A long company name is cut to its first fifteen characters followed by
   * `...`: a label is never longer than eighteen characters and starts like
   * the name it shortens.
   */
  function Shorten(company: string): (shown: string)
    ensures |shown| <= LabelWidth + 3
    ensures |company| <= LabelWidth ==> shown == company
    ensures |company| > LabelWidth ==> company[..LabelWidth] <= shown && shown[LabelWidth..] == "..."
  {
    if |company| > LabelWidth then company[..LabelWidth] + "..." else company
  }

  /**
   * `plot_companies`: the bars' labels and lengths for the first `topN`
   * companies; drawing and encoding the chart are not modelled.
   */
  method PlotBars(companyData: Counts, topN: int) returns (labels: seq<string>, counts: seq<int>)
    ensures var top := Top(companyData, topN);
      |labels| == |counts| == |top| &&
      (forall k :: 0 <= k < |top| ==> labels[k] == Shorten(top[k].0) && counts[k] == top[k].1)
  {
    var data := Top(companyData, topN);
    labels := [];
    counts := [];
    for k := 0 to |data|
      invariant |labels| == |counts| == k
      invariant forall j :: 0 <= j < k ==> labels[j] == Shorten(data[j].0) && counts[j] == data[j].1
    {
      var company := data[k].0;
      if |company| > LabelWidth {
        labels := labels + [company[..LabelWidth] + "..."];
      } else {
        labels := labels + [company];
      }
      counts := counts + [data[k].1];
    }
  }

  // ----- generate_html -----

  /** The page up to the table's heading row, line by line. */
  const HeaderLines: seq<string> := [
    "",
    "    <!DOCTYPE html>",
    "    <html>",
    "    <head>",
    "        <meta charset=\"utf-8\">",
    "        <title>公司高管统计详细数据</title>",
    "        <style>",
    "            body { font-family: Arial, sans-serif; margin: 0; padding: 20px; background-color: #f5f5f5; }",
    "            .container { max-width: 1200px; margin: 0 auto; background-color: white; padding: 20px; border-radius: 5px; box-shadow: 0 2px 5px rgba(0,0,0,0.1); }",
    "            h1 { color: #333; text-align: center; }",
    "            table { width: 100%; border-collapse: collapse; margin-top: 20px; }",
    "            th, td { padding: 10px; text-align: left; border-bottom: 1px solid #ddd; word-break: break-word; }",
    "            th { background-color: #f2f2f2; }",
    "            tr:hover { background-color: #f5f5f5; }",
    "        </style>",
    "    </head>",
    "    <body>",
    "        <div class=\"container\">",
    "            <h1>公司高管任职人数统计</h1>",
    "            <table>",
    "                <tr>",
    "                    <th>排名</th>",
    "                    <th style=\"width: 70%;\">公司名称</th>",
    "                    <th>高管人数</th>",
    "                </tr>",
    "    "
  ]

  const Header: string := Join("\n", HeaderLines)

  /** The rank cell of a row opens the row. */
  const RowOpen: string := @"
                <tr>
                    <td>"

  const CellBreak: string := @"</td>
                    <td>"

  const RowClose: string := @"</td>
                </tr>
        "

  /** Closes the table and the page, line by line. */
  const FooterLines: seq<string> := [
    "",
    "            </table>",
    "        </div>",
    "    </body>",
    "    </html>",
    "    "
  ]

  const Footer: string := Join("\n", FooterLines)

  /** One table row: the rank, the company and its count. */
  function Row(rank: int, company: string, count: int): string
  {
    RowOpen + IntStr(rank) + CellBreak + company + CellBreak + IntStr(count) + RowClose
  }

  /** The rows of the table, ranked from 1 in the order of the data. */
  function Rows(data: Counts): string
  {
    if data == [] then "" else Rows(data[..|data| - 1]) + Row(|data|, data[|data| - 1].0, data[|data| - 1].1)
  }

  /** A page of rows between a header and a footer. */
  function Page(header: string, data: Counts, footer: string): string
  {
    header + Rows(data) + footer
  }

  lemma PrefixOfAppend<T>(a: seq<T>, b: seq<T>)
    ensures a <= a + b
  {
    assert (a + b)[..|a|] == a;
  }

  lemma PrefixTransitive<T>(a: seq<T>, b: seq<T>, c: seq<T>)
    requires a <= b && b <= c
    ensures a <= c
  {
    assert c[..|b|][..|a|] == c[..|a|];
  }

  /** The rows of a prefix of the data begin the rows of the whole. */
  lemma {:induction false} RowsPrefix(data: Counts, m: nat)
    requires m <= |data|
    ensures Rows(data[..m]) <= Rows(data)
  {
    if m < |data| {
      var init := data[..|data| - 1];
      RowsPrefix(init, m);
      assert init[..m] == data[..m];
      PrefixOfAppend(Rows(init), Row(|data|, data[|data| - 1].0, data[|data| - 1].1));
      PrefixTransitive(Rows(data[..m]), Rows(init), Rows(data));
    } else {
      assert data[..m] == data;
    }
  }

  /** The rows of the first `i + 1` companies are those of the first `i` and the row of company `i`. */
  lemma RowsSnoc(data: Counts, i: nat)
    requires i < |data|
    ensures Rows(data[..i + 1]) == Rows(data[..i]) + Row(i + 1, data[i].0, data[i].1)
  {
    assert data[..i + 1][..i] == data[..i];
  }

  lemma Placed(a: string, b: string, c: string)
    ensures At(a + b + c, |a|, b)
  {
    assert (a + b + c)[|a| .. |a| + |b|] == b;
  }

  /** The page opens with the header and closes with the footer. */
  lemma PageFrame(header: string, data: Counts, footer: string)
    ensures header <= Page(header, data, footer)
    ensures At(Page(header, data, footer), |Page(header, data, footer)| - |footer|, footer)
  {
    Ends(header + Rows(data), footer);
    assert header <= header + Rows(data);
  }

  /** The row of the `k`-th company, ranked `k + 1`, follows the rows of the companies before it. */
  lemma RowsAt(header: string, data: Counts, footer: string, k: nat)
    requires k < |data|
    ensures At(Page(header, data, footer), |header| + |Rows(data[..k])|, Row(k + 1, data[k].0, data[k].1))
  {
    RowsPrefix(data, k + 1);
    var before := Rows(data[..k]);
    var row := Row(k + 1, data[k].0, data[k].1);
    RowsSnoc(data, k);
    var after := Rows(data)[|before + row|..];
    PrefixSplit(before + row, Rows(data));
    Regroup(header, before, row, after, footer);
    Placed(header + before, row, after + footer);
  }

  lemma Ends(a: string, b: string)
    ensures At(a + b, |a + b| - |b|, b)
  {
    assert (a + b)[|a| .. |a| + |b|] == b;
  }

  lemma PrefixSplit(p: string, s: string)
    requires p <= s
    ensures s == p + s[|p|..]
  {
  }

  lemma Regroup(h: string, b: string, r: string, a: string, f: string)
    ensures h + (b + r + a) + f == (h + b) + r + (a + f)
  {
  }

  /** Appends a row per company to the page so far. */
  method AppendRows(header: string, companyData: Counts) returns (html: string)
    ensures html == header + Rows(companyData)
  {
    html := header;
    for i := 0 to |companyData|
      invariant html == header + Rows(companyData[..i])
    {
      var (company, count) := companyData[i];
      var row := Row(i + 1, company, count);
      RowsSnoc(companyData, i);
      Associative(header, Rows(companyData[..i]), row);
      html := html + row;
    }
    assert companyData[..|companyData|] == companyData;
  }

  /** `generate_html`: the header, a row per company, and the footer. */
  method GenerateHtml(companyData: Counts) returns (html: string)
    ensures html == Page(Header, companyData, Footer)
  {
    html := AppendRows(Header, companyData);
    html := html + Footer;
  }

  lemma Associative(a: string, b: string, c: string)
    ensures (a + b) + c == a + (b + c)
  {
  }
}
