/** The monitor's instance list (src/lib/store.ts): projects parsed from window
    titles, the merge of a window scan into the list by window handle, and the
    status refresh of enabled instances by id. */
module Store {
  import opened Protocol
  import opened Types
  import Lists

  // ---------------------------------------------------------------- characters

  /** JavaScript's `\s`, which is also the set String.prototype.trim removes: the
      ECMAScript WhiteSpace and LineTerminator code points. */
  predicate IsSpace(c: char) {
    c == '\t' || c == '\n' || c == '\U{000B}' || c == '\U{000C}' || c == '\r' || c == ' ' ||
    c == '\U{00A0}' || c == '\U{1680}' || ('\U{2000}' <= c <= '\U{200A}') ||
    c == '\U{2028}' || c == '\U{2029}' || c == '\U{202F}' || c == '\U{205F}' ||
    c == '\U{3000}' || c == '\U{FEFF}'
  }

  /** The characters a regular-expression `.` does not match. */
  predicate IsLineTerminator(c: char) {
    c == '\n' || c == '\r' || c == '\U{2028}' || c == '\U{2029}'
  }

  /** `[-–]`: a hyphen-minus or an en dash. */
  predicate IsSeparator(c: char) {
    c == '-' || c == '\U{2013}'
  }

  /** `[/\\]` */
  predicate IsPathSeparator(c: char) {
    c == '/' || c == '\\'
  }

  /** `(Visual Studio Code|Antigravity|Code)` at the start of `s`; nothing has to
      follow it. */
  predicate StartsWithProduct(s: string) {
    "Visual Studio Code" <= s || "Antigravity" <= s || "Code" <= s
  }

  // ---------------------------------------------------------------- title pattern

  /** The end of the run of `\s` in `s` that starts at `from`. */
  function SkipSpaces(s: string, from: nat): (k: nat)
    requires from <= |s|
    ensures from <= k <= |s|
    ensures forall i :: from <= i < k ==> IsSpace(s[i])
    ensures k < |s| ==> !IsSpace(s[k])
    decreases |s| - from
  {
    if from == |s| || !IsSpace(s[from]) then from else SkipSpaces(s, from + 1)
  }

  /** The spaces of `s` between `lo` and `hi`. */
  ghost predicate AllSpaces(s: string, lo: int, hi: int)
    requires 0 <= lo && hi <= |s|
  {
    forall x :: lo <= x < hi ==> IsSpace(s[x])
  }

  /** `s` matches `\s*[-–]\s*(…)` with the separator at `i` and the product
      name at `j`. */
  ghost predicate SplitAt(s: string, i: int, j: int) {
    0 <= i < j <= |s| && AllSpaces(s, 0, i) && IsSeparator(s[i]) && AllSpaces(s, i + 1, j) &&
    StartsWithProduct(s[j..])
  }

  /** `\s*[-–]\s*(Visual Studio Code|Antigravity|Code)` at the start of `s`, as the
      regular expression reads it. */
  ghost predicate TailMatches(s: string) {
    exists i, j :: SplitAt(s, i, j)
  }

  /** The same test, greedily: neither a separator nor a product name starts with
      a space, so skipping all spaces is the only way to match. */
  function TailMatch(s: string): bool {
    var a := SkipSpaces(s, 0);
    a < |s| && IsSeparator(s[a]) && StartsWithProduct(s[SkipSpaces(s, a + 1)..])
  }

  /** The first non-space from `from` on is where SkipSpaces stops. */
  lemma SkipSpacesStopsAt(s: string, from: nat, i: int)
    requires from <= i < |s| && AllSpaces(s, from, i) && !IsSpace(s[i])
    ensures SkipSpaces(s, from) == i
  {
  }

  lemma GreedyFindsSplit(s: string)
    requires TailMatch(s)
    ensures TailMatches(s)
  {
    var a := SkipSpaces(s, 0);
    assert SplitAt(s, a, SkipSpaces(s, a + 1));
  }

  /** Neither a separator nor a product name starts with a space. */
  lemma NoSpaceStartsSplit(c: char, t: string)
    requires IsSeparator(c) && StartsWithProduct(t)
    ensures !IsSpace(c) && t != [] && !IsSpace(t[0]) && !IsSeparator(t[0])
  {
    assert t[0] == 'V' || t[0] == 'A' || t[0] == 'C';
  }

  lemma SplitIsGreedy(s: string, i: int, j: int)
    requires SplitAt(s, i, j)
    ensures TailMatch(s)
  {
    NoSpaceStartsSplit(s[i], s[j..]);
    SkipSpacesStopsAt(s, 0, i);
    SkipSpacesStopsAt(s, i + 1, j);
  }

  lemma TailMatchIsPattern(s: string)
    ensures TailMatch(s) <==> TailMatches(s)
  {
    if TailMatch(s) {
      GreedyFindsSplit(s);
    }
    if TailMatches(s) {
      var i, j :| SplitAt(s, i, j);
      SplitIsGreedy(s, i, j);
    }
  }

  /** A split point the pattern `^(.+?)\s*[-–]\s*(…)` accepts: a non-empty prefix
      without line terminators followed by the separator and a product name. */
  ghost predicate Candidate(t: string, m: int) {
    1 <= m <= |t| && (forall x :: 0 <= x < m ==> !IsLineTerminator(t[x])) && TailMatches(t[m..])
  }

  /** The lazy `.+?`: try prefixes of length n, n + 1, … until one fits, giving up
      at a line terminator. */
  function FirstSplit(t: string, n: nat): (k: Option<nat>)
    requires 1 <= n
    ensures k.Some? ==> n <= k.value <= |t|
    decreases |t| + 1 - n
  {
    if n > |t| then None
    else if IsLineTerminator(t[n - 1]) then None
    else if TailMatch(t[n..]) then Some(n)
    else FirstSplit(t, n + 1)
  }

  /** `.` does not match a line terminator, so no split point lies beyond one. */
  lemma NoCandidatePastTerminator(t: string, x: nat, m: int)
    requires x < m && x < |t| && IsLineTerminator(t[x])
    ensures !Candidate(t, m)
  {
  }

  /** A matching tail after a prefix free of line terminators is a split point. */
  lemma CandidateAfterPlainPrefix(t: string, n: nat)
    requires 1 <= n <= |t| && TailMatches(t[n..])
    requires forall x :: 0 <= x < n - 1 ==> !IsLineTerminator(t[x])
    requires !IsLineTerminator(t[n - 1])
    ensures Candidate(t, n)
  {
  }

  lemma {:induction false} FirstSplitIsLeast(t: string, n: nat)
    requires 1 <= n
    requires forall x :: 0 <= x < n - 1 && x < |t| ==> !IsLineTerminator(t[x])
    requires forall m :: 1 <= m < n ==> !Candidate(t, m)
    ensures FirstSplit(t, n).Some? ==>
      Candidate(t, FirstSplit(t, n).value) && forall m :: 1 <= m < FirstSplit(t, n).value ==> !Candidate(t, m)
    ensures FirstSplit(t, n).None? ==> forall m :: !Candidate(t, m)
    decreases |t| + 1 - n
  {
    if n > |t| {
    } else if IsLineTerminator(t[n - 1]) {
      forall m | n <= m
        ensures !Candidate(t, m)
      {
        NoCandidatePastTerminator(t, n - 1, m);
      }
    } else {
      TailMatchIsPattern(t[n..]);
      if TailMatch(t[n..]) {
        assert FirstSplit(t, n) == Some(n);
        CandidateAfterPlainPrefix(t, n);
      } else {
        assert FirstSplit(t, n) == FirstSplit(t, n + 1);
        assert forall m :: 1 <= m < n + 1 ==> !Candidate(t, m) by {
          assert !Candidate(t, n);
        }
        FirstSplitIsLeast(t, n + 1);
      }
    }
  }

  // ---------------------------------------------------------------- trim

  function TrimEnd(s: string): (r: string)
    ensures r <= s
    ensures forall x :: |r| <= x < |s| ==> IsSpace(s[x])
    ensures r != [] ==> !IsSpace(r[|r| - 1])
  {
    if s == [] || !IsSpace(s[|s| - 1]) then s else TrimEnd(s[..|s| - 1])
  }

  /** String.prototype.trim: the slice between the leading and trailing spaces. */
  function Trim(s: string): (r: string)
    ensures r != [] ==> !IsSpace(r[0]) && !IsSpace(r[|r| - 1])
    ensures SkipSpaces(s, 0) + |r| <= |s| && r == s[SkipSpaces(s, 0)..SkipSpaces(s, 0) + |r|]
    ensures forall x :: SkipSpaces(s, 0) + |r| <= x < |s| ==> IsSpace(s[x])
  {
    var a := SkipSpaces(s, 0);
    var r := TrimEnd(s[a..]);
    assert r == s[a..a + |r|];
    r
  }

  // ---------------------------------------------------------------- project path and name

  /** extractProjectPath */
  function ExtractProjectPath(title: string): string {
    match FirstSplit(title, 1)
    case Some(n) => Trim(title[..n])
    case None => title
  }

  /** The title is kept when no split point exists; otherwise the trimmed prefix
      before the shortest split point is taken. */
  lemma ExtractProjectPathSpec(title: string)
    ensures (forall m :: !Candidate(title, m)) ==> ExtractProjectPath(title) == title
    ensures forall m :: Candidate(title, m) && (forall m' :: 1 <= m' < m ==> !Candidate(title, m')) ==>
      ExtractProjectPath(title) == Trim(title[..m])
  {
    FirstSplitIsLeast(title, 1);
    if FirstSplit(title, 1).Some? {
      var n := FirstSplit(title, 1).value;
      forall m | Candidate(title, m) && (forall m' :: 1 <= m' < m ==> !Candidate(title, m'))
        ensures m == n
      {

      }
    }
  }

  /** A title without a hyphen or an en dash is kept as it is. */
  lemma NoSeparatorKeepsTitle(title: string)
    requires forall x :: 0 <= x < |title| ==> !IsSeparator(title[x])
    ensures ExtractProjectPath(title) == title
  {
    forall m | 1 <= m <= |title|
      ensures !Candidate(title, m)
    {
      var s := title[m..];
      forall i, j | 0 <= i < j <= |s|
        ensures !SplitAt(s, i, j)
      {
        assert s[i] == title[m + i];
      }
    }
    ExtractProjectPathSpec(title);
  }

  /** A suffix starting with a character that is neither a space nor a separator
      does not match the tail of the pattern. */
  lemma NoSplitAtWordChar(s: string)
    requires s != [] && !IsSpace(s[0]) && !IsSeparator(s[0])
    ensures !TailMatches(s)
  {
    forall i, j | 0 <= i < j <= |s|
      ensures !SplitAt(s, i, j)
    {
      if 0 < i {
        assert !AllSpaces(s, 0, i);
      }
    }
  }

  /** A project name as it stands before " - " in a title: non-empty, on one line,
      not ending in a space, and with no split point of its own (no `\s*[-–]\s*`
      followed by a product name inside it past its first character). Spaces,
      hyphens and en dashes are allowed otherwise. */
  ghost predicate TitleName(name: string) {
    name != [] && !IsSpace(name[|name| - 1]) &&
    (forall x :: 0 <= x < |name| ==> !IsLineTerminator(name[x])) &&
    (forall m :: 1 <= m < |name| ==> !TailMatches(name[m..]))
  }

  predicate IsProduct(product: string) {
    product in ["Visual Studio Code", "Antigravity", "Code"]
  }

  function Title(name: string, sep: char, product: string, rest: string): string {
    name + [' ', sep, ' '] + product + rest
  }

  lemma TitleSplitsAfterName(name: string, sep: char, product: string, rest: string)
    requires TitleName(name) && IsSeparator(sep) && IsProduct(product)
    ensures Candidate(Title(name, sep, product, rest), |name|)
  {
    var t := Title(name, sep, product, rest);
    var n := |name|;
    forall x | 0 <= x < n
      ensures !IsLineTerminator(t[x])
    {
      assert t[x] == name[x];
    }
    var tail := t[n..];
    assert tail == [' ', sep, ' '] + product + rest;
    assert tail[3..] == product + rest;
    assert SplitAt(tail, 1, 3);
  }

  /** In a product name, a space is never last and never followed by a separator. */
  lemma ProductSpaces(product: string)
    requires IsProduct(product)
    ensures forall k :: 0 <= k < |product| && product[k] == ' ' ==> k + 1 < |product| && !IsSeparator(product[k + 1])
  {
  }

  /** A product name at the end of the name does not reach into the " - " after it. */
  lemma ProductInsideName(u: string, sep: char, t: string, product: string)
    requires u != [] && IsSeparator(sep) && IsProduct(product)
    requires product <= u + ([' ', sep] + t)
    ensures product <= u
  {
    var w := u + ([' ', sep] + t);
    ProductSpaces(product);
    assert forall k :: 0 <= k < |product| ==> product[k] == w[k];
    assert w[|u|] == ' ' && w[|u| + 1] == sep;
    assert |product| <= |u|;
    assert product == w[..|product|] == u[..|product|];
  }

  /** A split point of `u + " -…"` that starts inside `u`, where `u` does not end in
      a space, is a split point of `u` itself. */
  lemma SplitBeforeGap(u: string, sep: char, v: string, i: int, j: int)
    requires u != [] && !IsSpace(u[|u| - 1]) && IsSeparator(sep)
    requires SplitAt(u + ([' ', sep] + v), i, j)
    ensures SplitAt(u, i, j)
  {
    var s := u + ([' ', sep] + v);
    var l := |u|;
    assert s[l - 1] == u[l - 1];
    assert i < l;
    assert s[l] == ' ' && s[l + 1] == sep;
    assert IsSpace(s[l]) && !IsSpace(s[l + 1]);
    NoSpaceStartsSplit(s[i], s[j..]);
    assert s[j..][0] == s[j];
    assert j < l;
    assert forall x :: 0 <= x < l ==> s[x] == u[x];
    var w := s[j..];
    assert w == u[j..] + ([' ', sep] + v);
    if "Visual Studio Code" <= w {
      ProductInsideName(u[j..], sep, v, "Visual Studio Code");
    } else if "Antigravity" <= w {
      ProductInsideName(u[j..], sep, v, "Antigravity");
    } else {
      ProductInsideName(u[j..], sep, v, "Code");
    }
  }

  lemma TitleNoEarlierSplit(name: string, sep: char, product: string, rest: string)
    requires TitleName(name) && IsSeparator(sep)
    ensures forall m :: 1 <= m < |name| ==> !Candidate(Title(name, sep, product, rest), m)
  {
    var t := Title(name, sep, product, rest);
    forall m | 1 <= m < |name|
      ensures !TailMatches(t[m..])
    {
      if TailMatches(t[m..]) {
        var i, j :| SplitAt(t[m..], i, j);
        assert t[m..] == name[m..] + ([' ', sep] + ([' '] + product + rest));
        SplitBeforeGap(name[m..], sep, [' '] + product + rest, i, j);
      }
    }
  }

  lemma TrimUnspaced(name: string)
    requires name != [] && !IsSpace(name[0]) && !IsSpace(name[|name| - 1])
    ensures Trim(name) == name
  {
    SkipSpacesStopsAt(name, 0, 0);
  }

  /** The usual title shape: a project name, then " - " or " – ", then a product
      name and any text after it (the pattern has no end anchor, so "Code - Insiders"
      or "Codex" count too). The project path is the name without leading spaces. */
  lemma ExtractProjectPathOfTitle(name: string, sep: char, product: string, rest: string)
    requires TitleName(name) && IsSeparator(sep) && IsProduct(product)
    ensures ExtractProjectPath(Title(name, sep, product, rest)) == Trim(name)
    ensures !IsSpace(name[0]) ==> ExtractProjectPath(Title(name, sep, product, rest)) == name
  {
    var t := Title(name, sep, product, rest);
    TitleSplitsAfterName(name, sep, product, rest);
    TitleNoEarlierSplit(name, sep, product, rest);
    ExtractProjectPathSpec(t);
    assert t[..|name|] == name;
    if !IsSpace(name[0]) {
      TrimUnspaced(name);
    }
  }

  /** `path.split(/[/\\]/).pop()`: the text after the last path separator. */
  function LastSegment(p: string): (seg: string)
    ensures |seg| <= |p| && seg == p[|p| - |seg|..]
    ensures forall x :: 0 <= x < |seg| ==> !IsPathSeparator(seg[x])
    ensures |seg| < |p| ==> IsPathSeparator(p[|p| - |seg| - 1])
    ensures p != [] && !IsPathSeparator(p[|p| - 1]) ==> seg != []
  {
    if p == [] || IsPathSeparator(p[|p| - 1]) then []
    else LastSegment(p[..|p| - 1]) + [p[|p| - 1]]
  }

  /** `segment || path`: an empty last segment falls back to the whole path. */
  function ProjectNameOf(path: string): (name: string)
    ensures (forall x :: 0 <= x < |path| ==> !IsPathSeparator(path[x])) ==> name == path
    ensures path != [] && IsPathSeparator(path[|path| - 1]) ==> name == path
    // Otherwise the name is the maximal separator-free suffix of the path.
    ensures path != [] && !IsPathSeparator(path[|path| - 1]) ==>
      name != [] && |name| <= |path| && name == path[|path| - |name|..] &&
      (forall x :: 0 <= x < |name| ==> !IsPathSeparator(name[x])) &&
      (|name| < |path| ==> IsPathSeparator(path[|path| - |name| - 1]))
  {
    var seg := LastSegment(path);
    if seg == [] then path else seg
  }

  /** extractProjectName */
  function ExtractProjectName(title: string): string {
    ProjectNameOf(ExtractProjectPath(title))
  }

  /** A title whose project path is a directory path: the project name is the
      path's last segment `leaf`. */
  lemma ExtractProjectNameOfTitle(dir: string, slash: char, leaf: string, sep: char, product: string, rest: string)
    requires IsPathSeparator(slash) && leaf != [] && (forall x :: 0 <= x < |leaf| ==> !IsPathSeparator(leaf[x]))
    requires TitleName(dir + [slash] + leaf) && !IsSpace((dir + [slash] + leaf)[0])
    requires IsSeparator(sep) && IsProduct(product)
    ensures ExtractProjectName(Title(dir + [slash] + leaf, sep, product, rest)) == leaf
  {
    var path := dir + [slash] + leaf;
    ExtractProjectPathOfTitle(path, sep, product, rest);
    var name := ProjectNameOf(path);
    assert path[|path| - 1] == leaf[|leaf| - 1];
    assert IsPathSeparator(path[|path| - |leaf| - 1]);
    // Both the name and the leaf are separator-free tails of the path, each one
    // preceded by a separator where it does not cover the whole path.
    forall i | |path| - |leaf| <= i < |path|
      ensures !IsPathSeparator(path[i])
    {
      assert path[i] == leaf[i - (|path| - |leaf|)];
    }
    forall i | |path| - |name| <= i < |path|
      ensures !IsPathSeparator(path[i])
    {
      assert path[i] == name[i - (|path| - |name|)];
    }
    assert |name| == |leaf|;
    assert name == path[|path| - |leaf|..] == leaf;
  }

  // ---------------------------------------------------------------- instance ids

  function DigitChar(d: nat): char
    requires d < 10
  {
    (48 + d) as char
  }

  /** A number's decimal text, as a template literal prints an integer. */
  function NatToString(n: nat): (s: string)
    ensures |s| >= 1 && (n >= 10 ==> |s| >= 2)
    ensures forall x :: 0 <= x < |s| ==> '0' <= s[x] <= '9'
  {
    if n < 10 then [DigitChar(n)] else NatToString(n / 10) + [DigitChar(n % 10)]
  }

  function IntToString(n: int): string {
    if n < 0 then "-" + NatToString(-n) else NatToString(n)
  }

  lemma {:induction false} NatToStringInjective(a: nat, b: nat)
    requires NatToString(a) == NatToString(b)
    ensures a == b
  {
    var s := NatToString(a);
    if a < 10 || b < 10 {
      assert |NatToString(a)| == 1 || |NatToString(b)| == 1;
    } else {
      assert DigitChar(a % 10) == s[|s| - 1] == DigitChar(b % 10);
      assert NatToString(a / 10) == s[..|s| - 1] == NatToString(b / 10);
      NatToStringInjective(a / 10, b / 10);
    }
  }

  lemma IntToStringInjective(a: int, b: int)
    requires IntToString(a) == IntToString(b)
    ensures a == b
  {
    var s := IntToString(a);
    if a < 0 {
      assert s[0] == '-';
      assert b < 0;
      assert NatToString(-a) == s[1..] == NatToString(-b);
      NatToStringInjective(-a, -b);
    } else {
      assert '0' <= s[0] <= '9';
      assert b >= 0;
      NatToStringInjective(a, b);
    }
  }

  function InstanceId(handle: int): string {
    "instance-" + IntToString(handle)
  }

  lemma InstanceIdInjective(a: int, b: int)
    requires InstanceId(a) == InstanceId(b)
    ensures a == b
  {
    var p := "instance-";
    assert IntToString(a) == InstanceId(a)[|p|..] == InstanceId(b)[|p|..] == IntToString(b);
    IntToStringInjective(a, b);
  }

  // ---------------------------------------------------------------- scan merge

  /** The instance a scan creates for a window it has not seen. */
  function NewInstance(r: ScanResult, maxRetries: int, now: int): Instance {
    Instance(InstanceId(r.windowHandle), r.windowTitle, r.windowHandle,
             ExtractProjectPath(r.windowTitle), ExtractProjectName(r.windowTitle),
             false, None, 0, 0, 0, maxRetries, Idle, now, 0)
  }

  function MergeOne(current: seq<Instance>, r: ScanResult, maxRetries: int, now: int): Instance {
    match Lists.Find(current, (i: Instance) => i.windowHandle == r.windowHandle)
    case Some(existing) => existing.(windowTitle := r.windowTitle)
    case None => NewInstance(r, maxRetries, now)
  }

  /** The `results.map(...)` of scanForInstances: one instance per scan result in
      scan order; a known handle keeps the first such instance with the new title,
      an unknown one gets a fresh disabled, idle instance. */
  function MergeScan(results: seq<ScanResult>, current: seq<Instance>, maxRetries: int, now: int): (merged: seq<Instance>)
    ensures |merged| == |results|
    ensures forall k :: 0 <= k < |results| ==>
      merged[k].windowHandle == results[k].windowHandle && merged[k].windowTitle == results[k].windowTitle
    ensures forall k, i :: (0 <= k < |results| && 0 <= i < |current| && current[i].windowHandle == results[k].windowHandle &&
                            (forall j :: 0 <= j < i ==> current[j].windowHandle != results[k].windowHandle)) ==>
      merged[k] == current[i].(windowTitle := results[k].windowTitle)
    ensures forall k :: (0 <= k < |results| && forall i :: 0 <= i < |current| ==> current[i].windowHandle != results[k].windowHandle) ==>
      merged[k] == NewInstance(results[k], maxRetries, now)
  {
    seq(|results|, k requires 0 <= k < |results| => MergeOne(current, results[k], maxRetries, now))
  }

  /** Each instance's id is derived from its window handle. */
  ghost predicate IdsFromHandles(list: seq<Instance>) {
    forall i :: 0 <= i < |list| ==> list[i].id == InstanceId(list[i].windowHandle)
  }

  ghost predicate DistinctIds(list: seq<Instance>) {
    forall i, j :: 0 <= i < j < |list| ==> list[i].id != list[j].id
  }

  /** A merge keeps ids derived from handles, so a scan of distinct windows yields
      distinct ids. */
  lemma MergeIdsFromHandles(results: seq<ScanResult>, current: seq<Instance>, maxRetries: int, now: int)
    requires IdsFromHandles(current)
    ensures IdsFromHandles(MergeScan(results, current, maxRetries, now))
    ensures (forall k, l :: 0 <= k < l < |results| ==> results[k].windowHandle != results[l].windowHandle) ==>
      DistinctIds(MergeScan(results, current, maxRetries, now))
  {
    var merged := MergeScan(results, current, maxRetries, now);
    forall k | 0 <= k < |merged|
      ensures merged[k].id == InstanceId(merged[k].windowHandle)
    {
      var p := (i: Instance) => i.windowHandle == results[k].windowHandle;
      var found := Lists.FindIndex(current, p);
      if found.Some? {
        assert merged[k] == current[found.value].(windowTitle := results[k].windowTitle);
      }
    }
    if forall k, l :: 0 <= k < l < |results| ==> results[k].windowHandle != results[l].windowHandle {
      forall k, l | 0 <= k < l < |merged|
        ensures merged[k].id != merged[l].id
      {
        if merged[k].id == merged[l].id {
          InstanceIdInjective(merged[k].windowHandle, merged[l].windowHandle);
        }
      }
    }
  }

  // ---------------------------------------------------------------- refresh

  /** `{ ...i, ...status }` */
  function WithStatus(x: Instance, st: StatusReport): (y: Instance)
    // The six reported fields come from the report...
    ensures y.status == st.status && y.currentIssue == st.currentIssue && y.totalIssues == st.totalIssues &&
            y.retryCount == st.retryCount && y.lastActivity == st.lastActivity && y.stepCount == st.stepCount
    // ...and every other field stays.
    ensures y.id == x.id && y.windowTitle == x.windowTitle && y.windowHandle == x.windowHandle &&
            y.projectPath == x.projectPath && y.projectName == x.projectName && y.enabled == x.enabled &&
            y.customPrompt == x.customPrompt && y.maxRetries == x.maxRetries
  {
    x.(status := st.status, currentIssue := st.currentIssue, totalIssues := st.totalIssues,
       retryCount := st.retryCount, lastActivity := st.lastActivity, stepCount := st.stepCount)
  }

  /** `list.map(i => i.id === id ? { ...i, ...status } : i)` */
  function ApplyById(list: seq<Instance>, id: string, st: StatusReport): seq<Instance> {
    seq(|list|, i requires 0 <= i < |list| => if list[i].id == id then WithStatus(list[i], st) else list[i])
  }

  /** One instance of the refresh loop; a disabled instance or a failed status
      query leave the list as it is. */
  function RefreshStep(list: seq<Instance>, inst: Instance, statusOf: int -> Option<StatusReport>): seq<Instance> {
    if !inst.enabled then list
    else match statusOf(inst.windowHandle)
      case None => list
      case Some(st) => ApplyById(list, inst.id, st)
  }

  /** The refresh loop over the instances `todo`, applied to `list`. */
  function RefreshFold(list: seq<Instance>, todo: seq<Instance>, statusOf: int -> Option<StatusReport>): seq<Instance>
    decreases |todo|
  {
    if todo == [] then list else RefreshFold(RefreshStep(list, todo[0], statusOf), todo[1..], statusOf)
  }

  /** What instance `t` of the loop does to an element with the same id. */
  function Applied(x: Instance, t: Instance, statusOf: int -> Option<StatusReport>): Instance {
    if t.enabled && statusOf(t.windowHandle).Some? then WithStatus(x, statusOf(t.windowHandle).value) else x
  }

  /** The loop seen from one element: the steps whose id it carries. */
  function PointFold(x: Instance, todo: seq<Instance>, statusOf: int -> Option<StatusReport>): Instance
    decreases |todo|
  {
    if todo == [] then x
    else PointFold(if todo[0].id == x.id then Applied(x, todo[0], statusOf) else x, todo[1..], statusOf)
  }

  lemma {:induction false} RefreshPointwise(list: seq<Instance>, todo: seq<Instance>, statusOf: int -> Option<StatusReport>)
    ensures |RefreshFold(list, todo, statusOf)| == |list|
    ensures forall i :: 0 <= i < |list| ==> RefreshFold(list, todo, statusOf)[i] == PointFold(list[i], todo, statusOf)
    decreases |todo|
  {
    if todo != [] {
      var next := RefreshStep(list, todo[0], statusOf);
      assert |next| == |list|;
      assert forall i :: 0 <= i < |list| ==>
        next[i] == if todo[0].id == list[i].id then Applied(list[i], todo[0], statusOf) else list[i];
      RefreshPointwise(next, todo[1..], statusOf);
    }
  }

  /** An element whose id appears in the loop exactly once, at `k`, gets exactly
      that step's update. */
  lemma {:induction false} PointFoldUnique(x: Instance, todo: seq<Instance>, k: nat, statusOf: int -> Option<StatusReport>)
    requires k < |todo| && todo[k].id == x.id
    requires forall j :: 0 <= j < |todo| && j != k ==> todo[j].id != x.id
    ensures PointFold(x, todo, statusOf) == Applied(x, todo[k], statusOf)
    decreases |todo|
  {
    if k == 0 {
      PointFoldMisses(Applied(x, todo[0], statusOf), todo[1..], statusOf);
    } else {
      PointFoldUnique(x, todo[1..], k - 1, statusOf);
    }
  }

  lemma {:induction false} PointFoldMisses(x: Instance, todo: seq<Instance>, statusOf: int -> Option<StatusReport>)
    requires forall j :: 0 <= j < |todo| ==> todo[j].id != x.id
    ensures PointFold(x, todo, statusOf) == x
    decreases |todo|
  {
    if todo != [] {
      PointFoldMisses(x, todo[1..], statusOf);
    }
  }

  /** refreshInstances over a list with distinct ids: every enabled instance whose
      status query answers takes that status; every other element is unchanged. */
  lemma RefreshUpdatesEnabledOnly(list: seq<Instance>, statusOf: int -> Option<StatusReport>)
    requires DistinctIds(list)
    ensures |RefreshFold(list, list, statusOf)| == |list|
    ensures forall i :: 0 <= i < |list| ==>
      RefreshFold(list, list, statusOf)[i] ==
        if list[i].enabled && statusOf(list[i].windowHandle).Some?
        then WithStatus(list[i], statusOf(list[i].windowHandle).value)
        else list[i]
  {
    RefreshPointwise(list, list, statusOf);
    forall i | 0 <= i < |list|
      ensures PointFold(list[i], list, statusOf) == Applied(list[i], list[i], statusOf)
    {
      PointFoldUnique(list[i], list, i, statusOf);
    }
  }

  /** Whatever the ids, a refresh changes no instance's identity, window, project
      or enabled flag, and keeps the list's length. */
  lemma RefreshKeepsIdentity(list: seq<Instance>, todo: seq<Instance>, statusOf: int -> Option<StatusReport>)
    ensures var r := RefreshFold(list, todo, statusOf);
      |r| == |list| &&
      forall i :: 0 <= i < |list| ==>
        r[i].id == list[i].id && r[i].windowHandle == list[i].windowHandle && r[i].windowTitle == list[i].windowTitle &&
        r[i].projectPath == list[i].projectPath && r[i].projectName == list[i].projectName &&
        r[i].enabled == list[i].enabled && r[i].maxRetries == list[i].maxRetries && r[i].customPrompt == list[i].customPrompt
  {
    RefreshPointwise(list, todo, statusOf);
    forall i | 0 <= i < |list|
      ensures PointKeeps(list[i], PointFold(list[i], todo, statusOf))
    {
      PointFoldKeeps(list[i], todo, statusOf);
    }
  }

  ghost predicate PointKeeps(x: Instance, y: Instance) {
    y.id == x.id && y.windowHandle == x.windowHandle && y.windowTitle == x.windowTitle &&
    y.projectPath == x.projectPath && y.projectName == x.projectName &&
    y.enabled == x.enabled && y.maxRetries == x.maxRetries && y.customPrompt == x.customPrompt
  }

  lemma {:induction false} PointFoldKeeps(x: Instance, todo: seq<Instance>, statusOf: int -> Option<StatusReport>)
    ensures PointKeeps(x, PointFold(x, todo, statusOf))
    decreases |todo|
  {
    if todo != [] {
      var y := if todo[0].id == x.id then Applied(x, todo[0], statusOf) else x;
      PointFoldKeeps(y, todo[1..], statusOf);
    }
  }

  // ---------------------------------------------------------------- the store

  /** The `instances` writable store. */
  class InstanceStore {
    var instances: seq<Instance>

    constructor ()
      ensures instances == []
    {
      instances := [];
    }

    /** scanForInstances with the backend's scan (None when the invoke fails; the
        list is then kept). */
    method ScanForInstances(scan: Option<seq<ScanResult>>, settings: Settings, now: int)
      modifies this
      ensures scan.Some? ==> instances == MergeScan(scan.value, old(instances), settings.maxRetries, now)
      ensures scan.None? ==> instances == old(instances)
    {
      if scan.Some? {
        var current := instances;
        instances := MergeScan(scan.value, current, settings.maxRetries, now);
      }
    }

    /** refreshInstances over a snapshot of the list, with the backend's status
        query per window handle (None when the invoke fails). */
    method RefreshInstances(statusOf: int -> Option<StatusReport>)
      modifies this
      ensures instances == RefreshFold(old(instances), old(instances), statusOf)
    {
      var current := instances;
      for j := 0 to |current|
        invariant RefreshFold(instances, current[j..], statusOf) == RefreshFold(current, current, statusOf)
      {
        var inst := current[j];
        assert current[j..][1..] == current[j + 1..];
        if !inst.enabled {
          continue;
        }
        var status := statusOf(inst.windowHandle);
        if status.Some? {
          instances := ApplyById(instances, inst.id, status.value);
        }
      }
      assert current[|current|..] == [];
    }
  }

  /** A rescan after a refresh: the enabled instance keeps its id, its enablement
      and its refreshed status, takes the new title, and a new window comes in
      disabled and idle. */
  method ScanRefreshScenario(statusOf: int -> Option<StatusReport>) returns (list: seq<Instance>)
    requires statusOf(7) == Some(StatusReport(Working, 2, 5, 0, 100, 9))
    ensures |list| == 2
    ensures list[0].id == "instance-7" && list[0].enabled && list[0].status == Working && list[0].stepCount == 9
    ensures list[0].windowTitle == "app - Code" && list[0].projectName == "app"
    ensures list[1] == NewInstance(ScanResult("b - Antigravity", 8, 2), 3, 50) && !list[1].enabled
  {
    var store := new InstanceStore();
    var known := Instance("instance-7", "app - Antigravity", 7, "app", "app", true, None, 0, 0, 0, 3, Idle, 0, 0);
    assert InstanceId(7) == "instance-7" by {
      assert NatToString(7) == "7";
    }
    store.instances := [known];
    store.RefreshInstances(statusOf);
    RefreshUpdatesEnabledOnly([known], statusOf);
    var refreshed := store.instances;
    assert |refreshed| == 1 && refreshed[0] == WithStatus(known, StatusReport(Working, 2, 5, 0, 100, 9));
    var settings := Settings("", 30, 3, "", true, true, true);
    var scan := [ScanResult("app - Code", 7, 1), ScanResult("b - Antigravity", 8, 2)];
    store.ScanForInstances(Some(scan), settings, 50);
    list := store.instances;
    assert list == MergeScan(scan, refreshed, 3, 50);
    assert refreshed[0].windowHandle == scan[0].windowHandle;
    assert list[0] == refreshed[0].(windowTitle := "app - Code");
    assert refreshed[0].windowHandle != scan[1].windowHandle;
  }
}
