/** activity9/main.go: the Terraform activity. `checkAllServices` asks for
    the Terraform file's path, runs eight checks and returns their verdicts as
    a list; `main` publishes the completion record when every verdict is
    true. The three Terraform commands are run through checkCmdExitCode,
    which is not part of this model: their errors are given. */
module Activity9 {
  import opened Outcomes
  import opened Text
  import Utils
  import Checks
  import opened Reporting

  const Localhost := "http://localhost"
  const Project := "sds-grader"
  const Grader := "grader"
  const Topic := "activity9"
  const TerraformSuffix := ".tf"
  const ContainerNames: seq<string> := ["todo-service", "redis"]

  /** The decryption key: "http://localhost" twice, as bytes. */
  function Key(): (key: seq<byte>)
    ensures |key| == KeySize
  {
    assert Localhost + Localhost == "http://localhosthttp://localhost";
    AsciiBytes(Localhost + Localhost)
  }

  // ------------------------------------------------------------------
  // Verbatim copies of the common code
  // ------------------------------------------------------------------

  /** checkFilePath: empty path first, then the suffix, then existence. */
  function CheckFilePath(filePath: string, suffix: string, stat: Checks.FileStat): (r: Outcome)
    ensures filePath == "" ==> r == Fail(EmptyPath)
    ensures filePath != "" && !HasSuffix(filePath, suffix) ==> r == Fail(MissingSuffix(filePath, suffix))
    ensures filePath != "" && HasSuffix(filePath, suffix) ==> (r.Nil? <==> !stat.NotExist?)
    ensures r.Nil? ==> filePath != "" && HasSuffix(filePath, suffix)
  {
    Checks.CheckFilePath(filePath, suffix, stat)
  }

  /** ensureHTTPPrefix (defined in this file, not called by it). */
  function EnsureHTTPPrefix(domain: string): (url: string)
    ensures Utils.HasScheme(domain) ==> url == domain
    ensures !Utils.HasScheme(domain) ==> url == "http://" + domain
    ensures Utils.HasScheme(url)
  {
    Utils.EnsureHTTPPrefixIdempotent(domain);
    Utils.EnsureHTTPPrefix(domain)
  }

  /** collectInfo on the line read: the trimmed line, or the default when it
      is blank. */
  function CollectInfo(line: string, defaultValue: string): (value: string)
    ensures TrimSpace(line) == "" ==> value == defaultValue
    ensures TrimSpace(line) != "" ==> value == TrimSpace(line)
  {
    Utils.CollectInfo(line, defaultValue)
  }

  /** allTrue: true exactly when no element is false. */
  method AllTrue(arr: seq<bool>) returns (r: bool)
    ensures r <==> Utils.AllHold(arr)
  {
    ghost var stop: nat;
    r, stop := Utils.AllTrue(arr);
  }

  /** checkResult: true exactly when the error is nil. */
  function CheckResult(err: Outcome, passMessage: string): (passed: bool)
    ensures passed <==> err.Nil?
  {
    Utils.CheckResult(err, passMessage)
  }

  /** checkRunningContainers: every name must occur in the `docker ps`
      output; a failure names the first missing one. */
  method CheckRunningContainers(names: seq<string>, ps: Call<string>) returns (r: Outcome)
    ensures r == Checks.RunningContainersVerdict(names, ps)
  {
    r := Checks.CheckRunningContainers(names, ps);
  }

  /** checkHTTPStatus: an exact status match, or "refused" when 404 was expected. */
  function CheckHTTPStatus(reply: Call<Response<()>>, expectedStatus: int, errorMsg: string): (r: Outcome)
    ensures r.Nil? <==> Checks.AbsenceByRefusal(reply, expectedStatus, "refused")
                        || (reply.Returned? && reply.value.statusCode == expectedStatus)
    ensures r.Fail? ==> r.error == Reported(errorMsg)
  {
    Checks.CheckHTTPStatus(reply, expectedStatus, errorMsg)
  }

  // ------------------------------------------------------------------
  // checkAllServices and main
  // ------------------------------------------------------------------

  /** What the probes observe. */
  datatype Probes = Probes(
    pathLine: string,                        // the line typed at the prompt
    stat: string -> Checks.FileStat,         // os.Stat of the path entered
    terraformVersion: Outcome,               // terraform version
    terraformInit: Outcome,                  // terraform -chdir=<dir> init
    terraformPlan: Outcome,                  // terraform -chdir=<dir> plan
    containers: Call<string>,                // docker ps
    service: Call<Response<()>>,             // GET http://localhost:8000
    post: Checks.PostChannel,                // POST http://localhost:8000
    get: Call<Response<Call<string>>>)       // GET http://localhost:8000, body read

  const PassMessages: seq<string> := [
    "Terraform file path is exist.",
    "Terraform is installed.",
    "Terraform is initialized.",
    "Terraform plan is generated.",
    "All specified containers are running.",
    "Todo is up and running at http://localhost:8000",
    "POST request to http://localhost:8000 was successful.",
    "GET request shows result from previous POST request to http://localhost:8000."]

  const TodoNotFound := "Todo-service was not found via http://localhost:8000. Please check your nginx-ingress service."

  /** The path the student entered; blank means "", which the path check rejects. */
  function TerraformPath(p: Probes): string {
    CollectInfo(p.pathLine, "")
  }

  /** The eight checks' errors, in the order of the result list. */
  function Errors(p: Probes): (errs: seq<Outcome>)
    ensures |errs| == 8
  {
    var path := TerraformPath(p);
    [ CheckFilePath(path, TerraformSuffix, p.stat(path)),
      p.terraformVersion,
      p.terraformInit,
      p.terraformPlan,
      Checks.RunningContainersVerdict(ContainerNames, p.containers),
      CheckHTTPStatus(p.service, StatusOK, TodoNotFound),
      Checks.SendPostRequest(true, p.post),
      Checks.SendGetRequest(Localhost + ":8000", Grader, p.get) ]
  }

  /** A blank answer to the prompt fails the first check and no other check
      depends on it. */
  lemma BlankPathFails(p: Probes)
    requires TrimSpace(p.pathLine) == ""
    ensures Errors(p)[0] == Fail(EmptyPath)
  {
  }

  /** checkAllServices: every check runs, whatever the others gave, and its
      verdict lands at its own place in a list of eight. */
  method CheckAllServices(p: Probes) returns (result: seq<bool>)
    ensures |result| == 8
    ensures result == Utils.CheckResults(Errors(p), PassMessages)
  {
    var path := CollectInfo(p.pathLine, "");
    var pathErr := CheckFilePath(path, TerraformSuffix, p.stat(path));
    var containersErr := CheckRunningContainers(ContainerNames, p.containers);
    var statusErr := CheckHTTPStatus(p.service, StatusOK, TodoNotFound);
    var postErr := Checks.SendPostRequest(true, p.post);
    var getErr := Checks.SendGetRequest(Localhost + ":8000", Grader, p.get);
    result := [
      CheckResult(pathErr, PassMessages[0]),
      CheckResult(p.terraformVersion, PassMessages[1]),
      CheckResult(p.terraformInit, PassMessages[2]),
      CheckResult(p.terraformPlan, PassMessages[3]),
      CheckResult(containersErr, PassMessages[4]),
      CheckResult(statusErr, PassMessages[5]),
      CheckResult(postErr, PassMessages[6]),
      CheckResult(getErr, PassMessages[7])];
    ghost var errs := [pathErr, p.terraformVersion, p.terraformInit, p.terraformPlan,
                       containersErr, statusErr, postErr, getErr];
    assert errs == Errors(p);
    EightResults(errs, PassMessages, result);
  }

  /** A list of eight CheckResult verdicts written out is CheckResults of the eight errors. */
  lemma EightResults(errs: seq<Outcome>, messages: seq<string>, result: seq<bool>)
    requires |errs| == |messages| == 8
    requires result == [errs[0].Nil?, errs[1].Nil?, errs[2].Nil?, errs[3].Nil?,
                        errs[4].Nil?, errs[5].Nil?, errs[6].Nil?, errs[7].Nil?]
    ensures result == Utils.CheckResults(errs, messages)
  {
  }

  /** main: the record is published exactly when all eight checks passed. */
  method Run(p: Probes, currentTime: int, blob: seq<byte>, user: UserInfo, machine: MachineInfo,
             lib: CryptoLib, ps: PubSub)
    returns (finalResult: bool, submission: Option<Submission>)
    ensures finalResult <==> forall i | 0 <= i < 8 :: Errors(p)[i] == Nil
    ensures finalResult ==> TerraformPath(p) != "" && HasSuffix(TerraformPath(p), TerraformSuffix)
    ensures submission.Some? <==> finalResult
    ensures submission.Some? ==>
      submission.value == HandleSuccess(currentTime, blob, Key(), Project, Topic, user, machine, lib, ps)
  {
    var result := CheckAllServices(p);
    finalResult := AllTrue(result);
    Utils.CheckResultsAllHold(Errors(p), PassMessages);
    if finalResult {
      assert Errors(p)[0] == Nil;
      submission := Some(HandleSuccess(currentTime, blob, Key(), Project, Topic, user, machine, lib, ps));
    } else {
      submission := None;
    }
  }
}
