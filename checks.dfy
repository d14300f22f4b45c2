/** common/checks.go: the decision rules of the environment probes. Every
    probe's command output, HTTP reply or file-system answer is a parameter;
    what is modelled is what the check concludes from it. */
module Checks {
  import opened Outcomes
  import opened Text
  import opened Html

  // ------------------------------------------------------------------
  // Searching command output for required words
  // ------------------------------------------------------------------

  /** The index of the first word, in list order, that does not occur in
      `output`; |words| when every word occurs. */
  function FirstMissingIndex(output: string, words: seq<string>): (k: nat)
    ensures k <= |words|
    ensures forall j | 0 <= j < k :: Contains(output, words[j])
    ensures k < |words| ==> !Contains(output, words[k])
    decreases |words|
  {
    if words == [] || !Contains(output, words[0]) then 0
    else 1 + FirstMissingIndex(output, words[1..])
  }

  /** The first missing word, if any. */
  function MissingWord(output: string, words: seq<string>): (missing: Option<string>)
    ensures missing.None? <==> forall j | 0 <= j < |words| :: Contains(output, words[j])
    ensures missing.Some? ==> FirstMissingAt(output, words, FirstMissingIndex(output, words))
                              && missing.value == words[FirstMissingIndex(output, words)]
  {
    var k := FirstMissingIndex(output, words);
    if k < |words| then Some(words[k]) else None
  }

  /** `words[k]` is missing from `output` and every word before it occurs. */
  predicate FirstMissingAt(output: string, words: seq<string>, k: nat) {
    k < |words| && !Contains(output, words[k])
    && forall j | 0 <= j < k :: Contains(output, words[j])
  }

  /** The loop shared by the output-matching checks: walk the words in order
      and stop at the first one that is not a substring of the output. */
  method FirstMissingWord(output: string, words: seq<string>) returns (missing: Option<string>)
    ensures missing == MissingWord(output, words)
  {
    var i := 0;
    while i < |words|
      invariant 0 <= i <= |words|
      invariant forall j | 0 <= j < i :: Contains(output, words[j])
    {
      if !Contains(output, words[i]) {
        assert FirstMissingIndex(output, words) == i;
        return Some(words[i]);
      }
      i := i + 1;
    }
    return None;
  }

  // ------------------------------------------------------------------
  // Docker
  // ------------------------------------------------------------------

  /** CheckNetwork: `docker network ls` must mention the network name. */
  function CheckNetwork(networkName: string, ls: Call<string>): (r: Outcome)
    ensures ls.Failed? ==> r == Fail(NetworkListFailed(ls.text))
    ensures ls.Returned? ==> (r.Nil? <==> Contains(ls.value, networkName))
    ensures ls.Returned? && r.Fail? ==> r.error == NetworkMissing(networkName)
  {
    match ls
    case Failed(t) => Fail(NetworkListFailed(t))
    case Returned(out) => if !Contains(out, networkName) then Fail(NetworkMissing(networkName)) else Nil
  }

  /** GetNetworkName: the raw `docker inspect` output naming the container's
      networks, or the command's failure. */
  function GetNetworkName(containerName: string, inspect: string -> Call<string>): (r: Result<string>)
    ensures inspect(containerName).Returned? ==> r == Ok(inspect(containerName).value)
    ensures inspect(containerName).Failed? ==> r == Err(NetworkLookupFailed(inspect(containerName).text))
  {
    match inspect(containerName)
    case Failed(t) => Err(NetworkLookupFailed(t))
    case Returned(out) => Ok(out)
  }

  /** The index of the first container of `rest` whose lookup does not give
      `first`; |rest| when every lookup gives it. */
  function DeviationIndex(rest: seq<string>, first: string, inspect: string -> Call<string>): (k: nat)
    ensures k <= |rest|
    ensures forall j | 0 <= j < k :: inspect(rest[j]) == Returned(first)
    ensures k < |rest| ==> inspect(rest[k]) != Returned(first)
    decreases |rest|
  {
    if rest == [] || inspect(rest[0]) != Returned(first) then 0
    else 1 + DeviationIndex(rest[1..], first, inspect)
  }

  /** The error reported for a container whose lookup does not give `first`. */
  function DeviationError(container: string, first: string, inspect: string -> Call<string>): Error {
    match GetNetworkName(container, inspect)
    case Err(e) => NetworkUnknown(e)
    case Ok(current) => DifferentNetwork(container, current, first)
  }

  /** CheckContainersOnSameNetwork, as a function of the lookups: fewer than
      two containers pass without any lookup; otherwise every container's
      network string must equal the first one's, and a failure names the
      first container, in list order, that differs. */
  function SameNetworkVerdict(names: seq<string>, inspect: string -> Call<string>): (r: Outcome)
    ensures |names| < 2 ==> r == Nil
    ensures |names| >= 2 ==>
      (r.Nil? <==> inspect(names[0]).Returned?
                   && forall k | 1 <= k < |names| :: inspect(names[k]) == inspect(names[0]))
    ensures |names| >= 2 && inspect(names[0]).Failed? ==>
      r == Fail(FirstNetworkUnknown(NetworkLookupFailed(inspect(names[0]).text)))
    ensures |names| >= 2 && inspect(names[0]).Returned? && r.Fail? ==>
      exists k | 1 <= k < |names| ::
        inspect(names[k]) != inspect(names[0])
        && (forall j | 1 <= j < k :: inspect(names[j]) == inspect(names[0]))
        && r.error == DeviationError(names[k], inspect(names[0]).value, inspect)
  {
    if |names| < 2 then Nil
    else
      match GetNetworkName(names[0], inspect)
      case Err(e) => Fail(FirstNetworkUnknown(e))
      case Ok(first) =>
        var rest := names[1..];
        var k := DeviationIndex(rest, first, inspect);
        assert forall j | 0 <= j < |rest| :: rest[j] == names[j + 1];
        if k == |rest| then Nil
        else
          assert inspect(names[k + 1]) != inspect(names[0]);
          Fail(DeviationError(rest[k], first, inspect))
  }

  /** CheckContainersOnSameNetwork: looks up the first container's networks,
      then compares each later container's in turn, stopping at the first
      failure. */
  method CheckContainersOnSameNetwork(names: seq<string>, inspect: string -> Call<string>)
    returns (r: Outcome)
    ensures r == SameNetworkVerdict(names, inspect)
  {
    if |names| < 2 {
      return Nil;
    }
    var firstNetwork := GetNetworkName(names[0], inspect);
    if firstNetwork.Err? {
      return Fail(FirstNetworkUnknown(firstNetwork.error));
    }
    var first := firstNetwork.value;
    ghost var rest := names[1..];
    var i := 1;
    while i < |names|
      invariant 1 <= i <= |names|
      invariant forall j | 1 <= j < i :: inspect(names[j]) == Returned(first)
    {
      var current := GetNetworkName(names[i], inspect);
      if current.Err? {
        assert rest[i - 1] == names[i];
        assert DeviationIndex(rest, first, inspect) == i - 1;
        return Fail(NetworkUnknown(current.error));
      }
      if current.value != first {
        assert rest[i - 1] == names[i];
        assert DeviationIndex(rest, first, inspect) == i - 1;
        return Fail(DifferentNetwork(names[i], current.value, first));
      }
      i := i + 1;
    }
    assert DeviationIndex(rest, first, inspect) == |rest|;
    return Nil;
  }

  /** The lines of `docker compose ls` output (header first), as the check
      splits them. */
  function ComposeLines(output: string): seq<string> {
    Split(TrimSpace(output), '\n')
  }

  /** Some line after the first mentions "running". */
  predicate RunningAfterHeader(lines: seq<string>) {
    exists k | 1 <= k < |lines| :: Contains(lines[k], "running")
  }

  /** CheckDockerComposeRunning, as a function of the command's result: the
      trimmed output must have a line after the header, and some line after
      the header must contain "running". */
  function ComposeVerdict(ls: Call<string>): (r: Outcome)
    ensures ls.Failed? ==> r == Fail(ComposeListFailed(ls.text))
    ensures ls.Returned? && '\n' !in TrimSpace(ls.value) ==> r == Fail(NoComposeProjects)
    ensures ls.Returned? && '\n' in TrimSpace(ls.value) ==>
      (r.Nil? <==> RunningAfterHeader(ComposeLines(ls.value)))
      && (r.Fail? ==> r.error == NoRunningComposeProjects)
  {
    match ls
    case Failed(t) => Fail(ComposeListFailed(t))
    case Returned(out) =>
      var lines := ComposeLines(out);
      SplitSingle(TrimSpace(out), '\n');
      if |lines| < 2 then Fail(NoComposeProjects)
      else if RunningAfterHeader(lines) then Nil
      else Fail(NoRunningComposeProjects)
  }

  /** The header line is never consulted: output whose only "running" is in
      its first line fails. */
  lemma ComposeHeaderIgnored(header: string, rows: string)
    requires '\n' !in header && '\n' !in rows
    requires !Contains(rows, "running")
    requires TrimSpace(header + "\n" + rows) == header + "\n" + rows
    ensures ComposeVerdict(Returned(header + "\n" + rows)) == Fail(NoRunningComposeProjects)
  {
    var out := header + "\n" + rows;
    SplitJoin(out, '\n');
    var lines := ComposeLines(out);
    assert '\n' in out by { assert out[|header|] == '\n'; }
    ComposeSplitTwo(header, rows);
    assert lines == [header, rows];
  }

  /** Splitting "header\nrows" gives exactly the two lines. */
  lemma {:induction false} ComposeSplitTwo(header: string, rows: string)
    requires '\n' !in header && '\n' !in rows
    ensures Split(header + "\n" + rows, '\n') == [header, rows]
    decreases |header|
  {
    if header == [] {
      assert ("" + "\n" + rows)[1..] == rows;
      SplitSingle(rows, '\n');
      SplitJoin(rows, '\n');
    } else {
      var s := header + "\n" + rows;
      assert s[1..] == header[1..] + "\n" + rows;
      ComposeSplitTwo(header[1..], rows);
      assert [header[0]] + header[1..] == header;
    }
  }

  /** CheckDockerComposeRunning: splits the trimmed output into lines, skips
      the header and stops at the first line that mentions "running". */
  method CheckDockerComposeRunning(ls: Call<string>) returns (r: Outcome)
    ensures r == ComposeVerdict(ls)
  {
    if ls.Failed? {
      return Fail(ComposeListFailed(ls.text));
    }
    var lines := ComposeLines(ls.value);
    if |lines| < 2 {
      return Fail(NoComposeProjects);
    }
    var i := 1;
    while i < |lines|
      invariant 1 <= i <= |lines|
      invariant forall k | 1 <= k < i :: !Contains(lines[k], "running")
    {
      if Contains(lines[i], "running") {
        return Nil;
      }
      i := i + 1;
    }
    return Fail(NoRunningComposeProjects);
  }

  /** CheckRunningContainers, as a function of the `docker ps` result: every
      name must be a substring of the output, and a failure names the first
      missing one in list order. */
  function RunningContainersVerdict(names: seq<string>, ps: Call<string>): (r: Outcome)
    ensures ps.Failed? ==> r == Fail(ContainerListFailed(ps.text))
    ensures ps.Returned? ==> (r.Nil? <==> forall k | 0 <= k < |names| :: Contains(ps.value, names[k]))
    ensures ps.Returned? && r.Fail? ==>
      exists k | 0 <= k < |names| :: FirstMissingAt(ps.value, names, k) && r.error == ContainerMissing(names[k])
  {
    match ps
    case Failed(t) => Fail(ContainerListFailed(t))
    case Returned(out) =>
      match MissingWord(out, names)
      case None => Nil
      case Some(name) => Fail(ContainerMissing(name))
  }

  /** CheckRunningContainers: checks the names in order against the
      `docker ps` output and stops at the first one not found. */
  method CheckRunningContainers(names: seq<string>, ps: Call<string>) returns (r: Outcome)
    ensures r == RunningContainersVerdict(names, ps)
  {
    if ps.Failed? {
      return Fail(ContainerListFailed(ps.text));
    }
    var missing := FirstMissingWord(ps.value, names);
    if missing.Some? {
      return Fail(ContainerMissing(missing.value));
    }
    return Nil;
  }

  /** Matching is by substring, not by whole line: a name that occurs inside
      another container's name passes, and so does the empty name. */
  lemma ContainerMatchIsSubstring(name: string, before: string, after: string, output: string)
    ensures RunningContainersVerdict([name], Returned(before + name + after)) == Nil
    ensures RunningContainersVerdict([""], Returned(output)) == Nil
  {
    ContainsInfix(before, name, after);
    ContainsEmpty(output);
  }

  // ------------------------------------------------------------------
  // The todo web application's page
  // ------------------------------------------------------------------

  const TitleTag := "title"
  const ScriptTag := "script"
  const TodoTitle := "Uber To Do"
  const BundlePath := "/static/js/bundle.js"

  datatype PageFlags = PageFlags(titleFound: bool, scriptFound: bool)

  /** A start tag or a self-closing tag. */
  predicate IsTag(t: Token) {
    t.kind == StartTagToken || t.kind == SelfClosingTagToken
  }

  predicate IsBundleSrc(a: Attribute) {
    a.key == "src" && a.val == BundlePath
  }

  /** A script tag that loads the bundle. */
  predicate IsBundleScript(t: Token) {
    IsScriptTag(t) && exists k | 0 <= k < |t.attrs| :: IsBundleSrc(t.attrs[k])
  }

  /** A title tag directly followed by a token whose trimmed data is the todo title. */
  predicate TitleAt(tokens: seq<Token>, i: nat) {
    i + 1 < |tokens| && IsTitleTag(tokens[i]) && ShowsTodoTitle(tokens[i + 1])
  }

  predicate IsTitleTag(t: Token) {
    IsTag(t) && t.data == TitleTag
  }

  predicate IsScriptTag(t: Token) {
    IsTag(t) && t.data == ScriptTag
  }

  /** The token's data, trimmed, is the todo application's title. */
  predicate ShowsTodoTitle(t: Token) {
    TrimSpace(t.data) == TodoTitle
  }

  function Either(a: PageFlags, b: PageFlags): PageFlags {
    PageFlags(a.titleFound || b.titleFound, a.scriptFound || b.scriptFound)
  }

  /** What the token loop of CheckPageContent finds. A title tag consumes the
      token after it (the tokenizer's next token, whose data is compared with
      the title), so that token is not itself inspected as a tag. */
  function Scan(tokens: seq<Token>): PageFlags
    decreases |tokens|
  {
    if tokens == [] then PageFlags(false, false)
    else
      var t := tokens[0];
      if IsTitleTag(t) then
        if |tokens| == 1 then PageFlags(false, false)
        else Either(PageFlags(ShowsTodoTitle(tokens[1]), false), Scan(tokens[2..]))
      else if IsScriptTag(t) then
        Either(PageFlags(false, IsBundleScript(t)), Scan(tokens[1..]))
      else Scan(tokens[1..])
  }

  /** Soundness of the scan: a flag is set only if the page has what it stands for. */
  lemma ScanSound(tokens: seq<Token>)
    ensures Scan(tokens).titleFound ==> exists i | 0 <= i < |tokens| :: TitleAt(tokens, i)
    ensures Scan(tokens).scriptFound ==> exists i | 0 <= i < |tokens| :: IsBundleScript(tokens[i])
  {
    ScanTitleSound(tokens);
    ScanScriptSound(tokens);
  }

  /** The tokens the scan goes on with after the first one: a title tag
      consumes the token after it as well. */
  function ScanRest(tokens: seq<Token>): (rest: seq<Token>)
    requires tokens != []
    ensures |rest| < |tokens|
  {
    if IsTitleTag(tokens[0]) && |tokens| > 1 then tokens[2..]
    else if IsTitleTag(tokens[0]) then []
    else tokens[1..]
  }

  /** The scan of a non-empty page is the first token's contribution joined
      with the scan of the rest. */
  lemma ScanUnfold(tokens: seq<Token>)
    requires tokens != []
    ensures Scan(tokens).titleFound <==>
      (IsTitleTag(tokens[0]) && |tokens| > 1 && ShowsTodoTitle(tokens[1])) || Scan(ScanRest(tokens)).titleFound
    ensures Scan(tokens).scriptFound <==> IsBundleScript(tokens[0]) || Scan(ScanRest(tokens)).scriptFound
  {
  }

  lemma {:induction false} ScanTitleSound(tokens: seq<Token>)
    ensures Scan(tokens).titleFound ==> exists i | 0 <= i < |tokens| :: TitleAt(tokens, i)
    decreases |tokens|
  {
    if tokens != [] && Scan(tokens).titleFound {
      ScanUnfold(tokens);
      var rest := ScanRest(tokens);
      if IsTitleTag(tokens[0]) && |tokens| > 1 && ShowsTodoTitle(tokens[1]) {
        assert TitleAt(tokens, 0);
      } else {
        ScanTitleSound(rest);
        var i :| 0 <= i < |rest| && TitleAt(rest, i);
        var skip := |tokens| - |rest|;
        assert rest == tokens[skip..];
        TitleAtShift(tokens, skip, i);
      }
    }
  }

  /** A title found in a suffix of the page is a title of the page. */
  lemma TitleAtShift(tokens: seq<Token>, skip: nat, i: nat)
    requires skip <= |tokens| && TitleAt(tokens[skip..], i)
    ensures TitleAt(tokens, i + skip)
  {
    var rest := tokens[skip..];
    assert rest[i] == tokens[i + skip] && rest[i + 1] == tokens[i + 1 + skip];
  }

  lemma {:induction false} ScanScriptSound(tokens: seq<Token>)
    ensures Scan(tokens).scriptFound ==> exists i | 0 <= i < |tokens| :: IsBundleScript(tokens[i])
    decreases |tokens|
  {
    if tokens != [] && Scan(tokens).scriptFound {
      ScanUnfold(tokens);
      var rest := ScanRest(tokens);
      if !IsBundleScript(tokens[0]) {
        ScanScriptSound(rest);
        var i :| 0 <= i < |rest| && IsBundleScript(rest[i]);
        var skip := |tokens| - |rest|;
        assert rest == tokens[skip..];
        assert rest[i] == tokens[i + skip];
      }
    }
  }

  /** On a page without title tags the scan finds no title, and it finds the
      script exactly when some script tag loads the bundle. */
  lemma {:induction false} ScanWithoutTitles(tokens: seq<Token>)
    requires forall i | 0 <= i < |tokens| :: !IsTitleTag(tokens[i])
    ensures !Scan(tokens).titleFound
    ensures Scan(tokens).scriptFound <==> exists i | 0 <= i < |tokens| :: IsBundleScript(tokens[i])
    decreases |tokens|
  {
    if tokens != [] {
      var rest := tokens[1..];
      assert forall i | 0 <= i < |rest| :: rest[i] == tokens[i + 1];
      ScanWithoutTitles(rest);
      if exists i | 0 <= i < |tokens| :: IsBundleScript(tokens[i]) {
        var i :| 0 <= i < |tokens| && IsBundleScript(tokens[i]);
        if i > 0 {
          assert IsBundleScript(rest[i - 1]);
        }
      }
    }
  }

  /** The flags only ever go from false to true: reading more tokens never
      clears a flag that a prefix of the page already set. */
  lemma {:induction false} ScanExtends(p: seq<Token>, q: seq<Token>)
    ensures Scan(p).titleFound ==> Scan(p + q).titleFound
    ensures Scan(p).scriptFound ==> Scan(p + q).scriptFound
    decreases |p|
  {
    if p != [] {
      var t := p[0];
      assert (p + q)[0] == t;
      if IsTitleTag(t) {
        if |p| > 1 {
          assert (p + q)[2..] == p[2..] + q;
          assert (p + q)[1] == p[1];
          ScanExtends(p[2..], q);
        }
      } else {
        assert (p + q)[1..] == p[1..] + q;
        ScanExtends(p[1..], q);
      }
    }
  }

  /** CheckPageContent, as a function of the GET reply: fetch errors and
      non-200 replies give an error and no flags; otherwise the flags are
      those of the scan. */
  function PageContent(page: Call<Response<seq<Token>>>): (r: (PageFlags, Outcome))
    ensures r.1.Fail? ==> r.0 == PageFlags(false, false)
    ensures page.Failed? ==> r.1 == Fail(FetchFailed(page.text))
    ensures page.Returned? && page.value.statusCode != StatusOK ==> r.1 == Fail(NonOkStatus(page.value.statusCode))
    ensures page.Returned? && page.value.statusCode == StatusOK ==> r == (Scan(page.value.body), Nil)
  {
    match page
    case Failed(t) => (PageFlags(false, false), Fail(FetchFailed(t)))
    case Returned(resp) =>
      if resp.statusCode != StatusOK then (PageFlags(false, false), Fail(NonOkStatus(resp.statusCode)))
      else (Scan(resp.body), Nil)
  }

  /** CheckPageContent: walks the tokens once, setting `titleFound` and
      `scriptFound` when it meets what they stand for, and returns both when
      the tokens run out. */
  method CheckPageContent(page: Call<Response<seq<Token>>>)
    returns (titleFound: bool, scriptFound: bool, err: Outcome)
    ensures (PageFlags(titleFound, scriptFound), err) == PageContent(page)
  {
    if page.Failed? {
      return false, false, Fail(FetchFailed(page.text));
    }
    if page.value.statusCode != StatusOK {
      return false, false, Fail(NonOkStatus(page.value.statusCode));
    }
    var tokens := page.value.body;
    titleFound, scriptFound := false, false;
    var i := 0;
    while i < |tokens|
      invariant 0 <= i <= |tokens|
      invariant Either(PageFlags(titleFound, scriptFound), Scan(tokens[i..])) == Scan(tokens)
    {
      ghost var at := tokens[i..];
      var t := tokens[i];
      i := i + 1;
      assert at[0] == t && at[1..] == tokens[i..];
      if IsTag(t) {
        if t.data == TitleTag {
          // the tokenizer's next token; at the end of the input its data is empty
          if i < |tokens| {
            assert at[1] == tokens[i] && at[2..] == tokens[i + 1..];
            if ShowsTodoTitle(tokens[i]) {
              titleFound := true;
            }
            i := i + 1;
          }
        }
        if t.data == ScriptTag {
          ghost var before := scriptFound;
          var j := 0;
          while j < |t.attrs|
            invariant 0 <= j <= |t.attrs|
            invariant scriptFound == (before || exists k | 0 <= k < j :: IsBundleSrc(t.attrs[k]))
          {
            if IsBundleSrc(t.attrs[j]) {
              scriptFound := true;
            }
            j := j + 1;
          }
        }
      }
    }
    return titleFound, scriptFound, Nil;
  }

  /** CheckScriptExists: the script URL must answer 200; it never reports
      "absent" without an error. */
  function CheckScriptExists(script: Call<Response<()>>): (r: Result<bool>)
    ensures r.Ok? <==> script.Returned? && script.value.statusCode == StatusOK
    ensures r.Ok? ==> r.value
    ensures script.Failed? ==> r == Err(ScriptFetchFailed(script.text))
    ensures script.Returned? && !r.Ok? ==> r == Err(ScriptNonOkStatus(script.value.statusCode))
  {
    match script
    case Failed(t) => Err(ScriptFetchFailed(t))
    case Returned(resp) => if resp.statusCode != StatusOK then Err(ScriptNonOkStatus(resp.statusCode)) else Ok(true)
  }

  /** CheckTodoWebapp: the page content is checked first, then the page's
      status, then the title, then the script tag, then the script URL; the
      first failing step decides the error. */
  function CheckTodoWebapp(page: Call<Response<seq<Token>>>, pageStatus: Call<Response<()>>,
                           script: Call<Response<()>>): (r: Outcome)
    ensures r.Nil? <==>
      page.Returned? && page.value.statusCode == StatusOK
      && pageStatus.Returned? && pageStatus.value.statusCode == StatusOK
      && Scan(page.value.body).titleFound && Scan(page.value.body).scriptFound
      && script.Returned? && script.value.statusCode == StatusOK
    ensures PageContent(page).1.Fail? ==> r == Fail(WebappContentError(PageContent(page).1.error))
    ensures PageContent(page).1.Nil? && CheckHTTPStatus(pageStatus, StatusOK, "").Fail? ==> r == Fail(WebappNotFound)
    ensures (PageContent(page).1.Nil? && CheckHTTPStatus(pageStatus, StatusOK, "").Nil?
             && !PageContent(page).0.titleFound) ==> r == Fail(WebappTitleMissing)
    ensures (PageContent(page).1.Nil? && CheckHTTPStatus(pageStatus, StatusOK, "").Nil?
             && PageContent(page).0.titleFound && !PageContent(page).0.scriptFound) ==> r == Fail(WebappScriptMissing)
    ensures (PageContent(page).1.Nil? && CheckHTTPStatus(pageStatus, StatusOK, "").Nil?
             && PageContent(page).0.titleFound && PageContent(page).0.scriptFound
             && CheckScriptExists(script).Err?) ==> r == Fail(ScriptUrlError(CheckScriptExists(script).error))
  {
    var (flags, err) := PageContent(page);
    if err.Fail? then Fail(WebappContentError(err.error))
    else if CheckHTTPStatus(pageStatus, StatusOK, "").Fail? then Fail(WebappNotFound)
    else if !flags.titleFound then Fail(WebappTitleMissing)
    else if !flags.scriptFound then Fail(WebappScriptMissing)
    else
      match CheckScriptExists(script)
      case Err(e) => Fail(ScriptUrlError(e))
      case Ok(_) => Nil
  }

  // ------------------------------------------------------------------
  // HTTP
  // ------------------------------------------------------------------

  /** A transport error counts as a pass only when it mentions `marker` and
      the endpoint is expected to be absent (404). */
  predicate AbsenceByRefusal(reply: Call<Response<()>>, expectedStatus: int, marker: string) {
    reply.Failed? && Contains(reply.text, marker) && expectedStatus == StatusNotFound
  }

  /** CheckHTTPStatus: a reply passes on an exact status match; a transport
      error passes only if it mentions "refused" and 404 was expected. Every
      failure reports the caller's `errorMsg`. */
  function CheckHTTPStatus(reply: Call<Response<()>>, expectedStatus: int, errorMsg: string): (r: Outcome)
    ensures r.Nil? <==> AbsenceByRefusal(reply, expectedStatus, "refused")
                        || (reply.Returned? && reply.value.statusCode == expectedStatus)
    ensures r.Fail? ==> r.error == Reported(errorMsg)
  {
    match reply
    case Failed(t) =>
      if Contains(t, "refused") && expectedStatus == StatusNotFound then Nil else Fail(Reported(errorMsg))
    case Returned(resp) =>
      if resp.statusCode == expectedStatus then Nil else Fail(Reported(errorMsg))
  }

  /** The todo item that SendPostRequest posts. Its "detail" and "duedate" fields
      carry the clock and are not modelled; "tags" is always empty. */
  datatype TodoPayload = TodoPayload(title: string, completed: bool)

  function PostPayload(check: bool): (p: TodoPayload)
    ensures p.title == "grader" && p.completed == check
  {
    TodoPayload("grader", check)
  }

  /** JSON encoding of the payload and the POST itself, both foreign. */
  datatype PostChannel = PostChannel(
    marshal: TodoPayload -> Call<seq<byte>>,
    send: seq<byte> -> Call<Response<()>>)

  /** The POST's reply, when the payload could be encoded. */
  function PostReply(check: bool, ch: PostChannel): Option<Call<Response<()>>> {
    match ch.marshal(PostPayload(check))
    case Failed(_) => None
    case Returned(body) => Some(ch.send(body))
  }

  /** SendPostRequest: encodes the payload (stopping if that fails), posts it,
      and accepts a 200 or a 201 reply. */
  function SendPostRequest(check: bool, ch: PostChannel): (r: Outcome)
    ensures ch.marshal(PostPayload(check)).Failed? ==> r == Fail(MarshalFailed(ch.marshal(PostPayload(check)).text))
    ensures r.Nil? <==>
      PostReply(check, ch).Some? && PostReply(check, ch).value.Returned?
      && (PostReply(check, ch).value.value.statusCode in {StatusOK, StatusCreated})
    ensures PostReply(check, ch).Some? && PostReply(check, ch).value.Failed? ==>
      r == Fail(PostFailed(PostReply(check, ch).value.text))
    ensures PostReply(check, ch).Some? && PostReply(check, ch).value.Returned? && r.Fail? ==>
      r == Fail(PostStatus(PostReply(check, ch).value.value.statusCode))
  {
    match ch.marshal(PostPayload(check))
    case Failed(t) => Fail(MarshalFailed(t))
    case Returned(body) =>
      match ch.send(body)
      case Failed(t) => Fail(PostFailed(t))
      case Returned(resp) =>
        if resp.statusCode == StatusOK || resp.statusCode == StatusCreated then Nil
        else Fail(PostStatus(resp.statusCode))
  }

  /** SendGetRequest: the body must contain `word`; the status code is not
      looked at. */
  function SendGetRequest(url: string, word: string, reply: Call<Response<Call<string>>>): (r: Outcome)
    ensures r.Nil? <==> reply.Returned? && reply.value.body.Returned? && Contains(reply.value.body.value, word)
    ensures reply.Failed? ==> r == Fail(GetFailed(reply.text))
    ensures reply.Returned? && reply.value.body.Failed? ==> r == Fail(BodyReadFailed(reply.value.body.text))
    ensures reply.Returned? && reply.value.body.Returned? && r.Fail? ==> r == Fail(WordNotFound(word, url))
  {
    match reply
    case Failed(t) => Fail(GetFailed(t))
    case Returned(resp) =>
      match resp.body
      case Failed(t) => Fail(BodyReadFailed(t))
      case Returned(body) => if Contains(body, word) then Nil else Fail(WordNotFound(word, url))
  }

  /** The status code plays no part in SendGetRequest: an error page that
      mentions the word passes. */
  lemma GetIgnoresStatus(url: string, word: string, body: Call<string>, status1: int, status2: int)
    ensures SendGetRequest(url, word, Returned(Response(status1, body)))
         == SendGetRequest(url, word, Returned(Response(status2, body)))
  {
  }

  // ------------------------------------------------------------------
  // Kubernetes
  // ------------------------------------------------------------------

  /** How Go's `%v` prints a nil error. */
  const NilErrorText := "<nil>"

  /** CheckNamespaceExists as written: the failure message formats `err`,
      which is nil on that path, so it never names the namespace. */
  function CheckNamespaceExistsAsWritten(namespace: string, kubectl: Call<string>): (r: Outcome)
    ensures kubectl.Failed? ==> r == Fail(KubectlFailed(kubectl.text))
    ensures kubectl.Returned? ==> (r.Nil? <==> Contains(kubectl.value, namespace))
    ensures kubectl.Returned? && r.Fail? ==> r.error == NamespaceMissing(NilErrorText)
  {
    match kubectl
    case Failed(t) => Fail(KubectlFailed(t))
    case Returned(out) => if Contains(out, namespace) then Nil else Fail(NamespaceMissing(NilErrorText))
  }

  /** The namespace "grading-ns" is missing from a listing that shows only
      "default", and the error reads "Couldn't find namespace <nil>." instead
      of naming it. */
  lemma NamespaceMessageShowsNil()
    ensures CheckNamespaceExistsAsWritten("grading-ns", Returned("default")) == Fail(NamespaceMissing(NilErrorText))
    ensures NilErrorText != "grading-ns"
  {
  }

  /** CheckNamespaceExists with the message naming the namespace, as
      intended. Activity 8's copy keeps the "<nil>" text, so its model uses
      CheckNamespaceExistsAsWritten; this one is the correction. */
  function CheckNamespaceExists(namespace: string, kubectl: Call<string>): (r: Outcome)
    ensures kubectl.Failed? ==> r == Fail(KubectlFailed(kubectl.text))
    ensures kubectl.Returned? ==> (r.Nil? <==> Contains(kubectl.value, namespace))
    ensures kubectl.Returned? && r.Fail? ==> r.error == NamespaceMissing(namespace)
  {
    match kubectl
    case Failed(t) => Fail(KubectlFailed(t))
    case Returned(out) => if Contains(out, namespace) then Nil else Fail(NamespaceMissing(namespace))
  }

  /** The two differ only in the text of the failure. */
  lemma NamespaceCorrectionKeepsVerdict(namespace: string, kubectl: Call<string>)
    ensures CheckNamespaceExists(namespace, kubectl).Nil? <==> CheckNamespaceExistsAsWritten(namespace, kubectl).Nil?
  {
  }

  /** The words `kubectl get all` must show. */
  const KubernetesWords: seq<string> := ["service/todo", "deployment.apps/todo", "pod/todo", "Running", "80"]

  /** CheckKubernetesResources, as a function of the `kubectl get all` result
      for a word list: every word must occur, and a failure reports the first
      missing one in list order. */
  function ResourcesVerdict(words: seq<string>, getAll: Call<string>): (r: Outcome)
    ensures getAll.Failed? ==> r == Fail(KubectlAllFailed(getAll.text))
    ensures getAll.Returned? ==> (r.Nil? <==> forall k | 0 <= k < |words| :: Contains(getAll.value, words[k]))
    ensures getAll.Returned? && r.Fail? ==>
      exists k | 0 <= k < |words| :: FirstMissingAt(getAll.value, words, k) && r.error == WordMissing(words[k])
  {
    match getAll
    case Failed(t) => Fail(KubectlAllFailed(t))
    case Returned(out) =>
      match MissingWord(out, words)
      case None => Nil
      case Some(w) => Fail(WordMissing(w))
  }

  /** Requiring more words only makes the check harder to pass: an output
      that shows every word of `large` shows every word of `small` when each
      word of `small` is also in `large`. */
  lemma ResourcesMonotone(small: seq<string>, large: seq<string>, getAll: Call<string>)
    requires forall k | 0 <= k < |small| :: small[k] in large
    ensures ResourcesVerdict(large, getAll).Nil? ==> ResourcesVerdict(small, getAll).Nil?
  {
  }

  /** CheckKubernetesResources: checks the five fixed words in order and
      stops at the first one missing. */
  method CheckKubernetesResources(getAll: Call<string>) returns (r: Outcome)
    ensures r == ResourcesVerdict(KubernetesWords, getAll)
  {
    if getAll.Failed? {
      return Fail(KubectlAllFailed(getAll.text));
    }
    var missing := FirstMissingWord(getAll.value, KubernetesWords);
    if missing.Some? {
      return Fail(WordMissing(missing.value));
    }
    return Nil;
  }

  /** CheckIngressExists: `kubectl get ingress` output must contain "ingress". */
  function CheckIngressExists(namespace: string, kubectl: Call<string>): (r: Outcome)
    ensures kubectl.Failed? ==> r == Fail(KubectlFailed(kubectl.text))
    ensures kubectl.Returned? ==> (r.Nil? <==> Contains(kubectl.value, "ingress"))
    ensures kubectl.Returned? && r.Fail? ==> r.error == NoIngress(namespace)
  {
    match kubectl
    case Failed(t) => Fail(KubectlFailed(t))
    case Returned(out) => if Contains(out, "ingress") then Nil else Fail(NoIngress(namespace))
  }

  // ------------------------------------------------------------------
  // Files
  // ------------------------------------------------------------------

  /** What `os.Stat` says about a path: only a "does not exist" error counts
      as missing; any other error lets the check pass. */
  datatype FileStat = Exists | NotExist | StatError(text: string)

  /** CheckFilePath: empty path first, then the suffix, then existence. */
  function CheckFilePath(filePath: string, suffix: string, stat: FileStat): (r: Outcome)
    ensures filePath == "" ==> r == Fail(EmptyPath)
    ensures filePath != "" && !HasSuffix(filePath, suffix) ==> r == Fail(MissingSuffix(filePath, suffix))
    ensures filePath != "" && HasSuffix(filePath, suffix) ==> (r.Nil? <==> !stat.NotExist?)
    ensures r.Fail? && filePath != "" && HasSuffix(filePath, suffix) ==> r == Fail(PathNotFound(filePath))
    ensures r.Nil? ==> filePath != "" && HasSuffix(filePath, suffix)
  {
    if filePath == "" then Fail(EmptyPath)
    else if !HasSuffix(filePath, suffix) then Fail(MissingSuffix(filePath, suffix))
    else if stat.NotExist? then Fail(PathNotFound(filePath))
    else Nil
  }
}
