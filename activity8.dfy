/** activity8/main.go: the Kubernetes activity. `checkAllServices` asks for a
    namespace, runs six checks and returns their verdicts as a list; `main`
    publishes the completion record when every verdict is true. */
module Activity8 {
  import opened Outcomes
  import opened Text
  import Utils
  import Checks
  import opened Reporting

  const Localhost := "http://localhost"
  const DefaultNamespace := "default"
  const Project := "sds-grader"
  const Grader := "grader"
  const Topic := "activity8"

  /** The decryption key: "http://localhost" twice, as bytes. */
  function Key(): (key: seq<byte>)
    ensures |key| == KeySize
  {
    assert Localhost + Localhost == "http://localhosthttp://localhost";
    AsciiBytes(Localhost + Localhost)
  }

  /** collectNamespace on the line read: the trimmed line, or "default" when
      it is blank. */
  function CollectNamespace(line: string): (namespace: string)
    ensures TrimSpace(line) == "" ==> namespace == DefaultNamespace
    ensures TrimSpace(line) != "" ==> namespace == TrimSpace(line)
    ensures namespace != ""
  {
    var namespace := TrimSpace(line);
    if namespace == "" then DefaultNamespace else namespace
  }

  /** collectNamespace is CollectInfo with "default" as the default. */
  lemma CollectNamespaceIsCollectInfo(line: string)
    ensures CollectNamespace(line) == Utils.CollectInfo(line, DefaultNamespace)
  {
  }

  /** The ten words `kubectl get all` must show in this activity. */
  const Words: seq<string> := [
    "service/todo", "service/nginx",
    "deployment.apps/nginx", "deployment.apps/todo",
    "pod/redis", "pod/todo", "ingress",
    "Running", "LoadBalancer", "80"]

  /** checkKubernetesResources: checks the ten words in order and stops at the
      first one missing. */
  method CheckKubernetesResources(getAll: Call<string>) returns (r: Outcome)
    ensures r == Checks.ResourcesVerdict(Words, getAll)
  {
    if getAll.Failed? {
      return Fail(KubectlAllFailed(getAll.text));
    }
    var missing := Checks.FirstMissingWord(getAll.value, Words);
    if missing.Some? {
      return Fail(WordMissing(missing.value));
    }
    return Nil;
  }

  /** The ten-word list contains the common five, so an output that passes
      here passes the common check too; an output showing only the common
      five fails here, for want of "service/nginx". */
  lemma ResourcesStricterThanCommon(getAll: Call<string>)
    ensures Checks.ResourcesVerdict(Words, getAll).Nil? ==> Checks.ResourcesVerdict(Checks.KubernetesWords, getAll).Nil?
    ensures getAll.Returned? && !Contains(getAll.value, "service/nginx") ==>
      Checks.ResourcesVerdict(Words, getAll).Fail?
  {
    var common := Checks.KubernetesWords;
    assert forall k | 0 <= k < |common| :: common[k] in Words;
    Checks.ResourcesMonotone(common, Words, getAll);
    assert Words[1] == "service/nginx";
  }

  // ------------------------------------------------------------------
  // Verbatim copies of the common code
  // ------------------------------------------------------------------

  /** allTrue: true exactly when no element is false. */
  method AllTrue(arr: seq<bool>) returns (r: bool)
    ensures r <==> Utils.AllHold(arr)
  {
    ghost var stop: nat;
    r, stop := Utils.AllTrue(arr);
  }

  /** checkResult: true exactly when the error is nil. */
  function CheckResult(err: Outcome, passMessage: string): (passed: bool)
    ensures passed <==> err.Nil?
  {
    Utils.CheckResult(err, passMessage)
  }

  /** checkHTTPStatus: an exact status match, or "refused" when 404 was expected. */
  function CheckHTTPStatus(reply: Call<Response<()>>, expectedStatus: int, errorMsg: string): (r: Outcome)
    ensures r.Nil? <==> Checks.AbsenceByRefusal(reply, expectedStatus, "refused")
                        || (reply.Returned? && reply.value.statusCode == expectedStatus)
    ensures r.Fail? ==> r.error == Reported(errorMsg)
  {
    Checks.CheckHTTPStatus(reply, expectedStatus, errorMsg)
  }

  /** sendPostRequest: 200 or 201 is accepted. */
  function SendPostRequest(check: bool, ch: Checks.PostChannel): (r: Outcome)
    ensures r.Nil? <==>
      Checks.PostReply(check, ch).Some? && Checks.PostReply(check, ch).value.Returned?
      && (Checks.PostReply(check, ch).value.value.statusCode in {StatusOK, StatusCreated})
  {
    Checks.SendPostRequest(check, ch)
  }

  /** sendGetRequest: the body must contain the word, whatever the status. */
  function SendGetRequest(url: string, word: string, reply: Call<Response<Call<string>>>): (r: Outcome)
    ensures r.Nil? <==> reply.Returned? && reply.value.body.Returned? && Contains(reply.value.body.value, word)
  {
    Checks.SendGetRequest(url, word, reply)
  }

  // ------------------------------------------------------------------
  // checkAllServices and main
  // ------------------------------------------------------------------

  /** What the probes observe. The kubectl commands that take the namespace
      are functions of it, since the namespace is read first. */
  datatype Probes = Probes(
    namespaceLine: string,                          // the line typed at the prompt
    namespaces: Call<string>,                       // kubectl get namespace
    getAll: string -> Call<string>,                 // kubectl get all -n <namespace>
    ingress: string -> Call<string>,                // kubectl get ingress -n <namespace>
    localhost: Call<Response<()>>,                  // GET http://localhost
    post: Checks.PostChannel,                       // POST http://localhost
    get: Call<Response<Call<string>>>)              // GET http://localhost, body read

  const PassMessages: seq<string> := [
    "Namespace exists and can use kubectl command.",
    "All Kubernetes resources are up and running.",
    "Ingress resource exists in the namespace.",
    "Todo is up and running at http://localhost",
    "POST request to http://localhost was successful.",
    "GET request shows result from previous POST request to http://localhost."]

  const TodoNotFound := "Todo-service was not found via http://localhost. Please check your nginx-ingress service."

  /** The six checks' errors, in the order of the result list. The namespace
      check is activity 8's own copy, which keeps the "<nil>" failure text of
      the common one. */
  function Errors(p: Probes): (errs: seq<Outcome>)
    ensures |errs| == 6
  {
    var namespace := CollectNamespace(p.namespaceLine);
    [ Checks.CheckNamespaceExistsAsWritten(namespace, p.namespaces),
      Checks.ResourcesVerdict(Words, p.getAll(namespace)),
      Checks.CheckIngressExists(namespace, p.ingress(namespace)),
      CheckHTTPStatus(p.localhost, StatusOK, TodoNotFound),
      SendPostRequest(true, p.post),
      SendGetRequest(Localhost, Grader, p.get) ]
  }

  /** checkAllServices: every check runs, whatever the others gave, and its
      verdict lands at its own place in a list of six. */
  method CheckAllServices(p: Probes) returns (result: seq<bool>)
    ensures |result| == 6
    ensures result == Utils.CheckResults(Errors(p), PassMessages)
  {
    var namespace := CollectNamespace(p.namespaceLine);
    var namespaceErr := Checks.CheckNamespaceExistsAsWritten(namespace, p.namespaces);
    var resourcesErr := CheckKubernetesResources(p.getAll(namespace));
    var ingressErr := Checks.CheckIngressExists(namespace, p.ingress(namespace));
    var statusErr := CheckHTTPStatus(p.localhost, StatusOK, TodoNotFound);
    var postErr := SendPostRequest(true, p.post);
    var getErr := SendGetRequest(Localhost, Grader, p.get);
    result := [
      CheckResult(namespaceErr, PassMessages[0]),
      CheckResult(resourcesErr, PassMessages[1]),
      CheckResult(ingressErr, PassMessages[2]),
      CheckResult(statusErr, PassMessages[3]),
      CheckResult(postErr, PassMessages[4]),
      CheckResult(getErr, PassMessages[5])];
    ghost var errs := [namespaceErr, resourcesErr, ingressErr, statusErr, postErr, getErr];
    assert errs == Errors(p);
    SixResults(errs, PassMessages, result);
  }

  /** A list of six CheckResult verdicts written out is CheckResults of the six errors. */
  lemma SixResults(errs: seq<Outcome>, messages: seq<string>, result: seq<bool>)
    requires |errs| == |messages| == 6
    requires result == [errs[0].Nil?, errs[1].Nil?, errs[2].Nil?, errs[3].Nil?, errs[4].Nil?, errs[5].Nil?]
    ensures result == Utils.CheckResults(errs, messages)
  {
  }

  /** main: the record is published exactly when all six checks passed. */
  method Run(p: Probes, currentTime: int, blob: seq<byte>, user: UserInfo, machine: MachineInfo,
             lib: CryptoLib, ps: PubSub)
    returns (finalResult: bool, submission: Option<Submission>)
    ensures finalResult <==> forall i | 0 <= i < 6 :: Errors(p)[i] == Nil
    ensures submission.Some? <==> finalResult
    ensures submission.Some? ==>
      submission.value == HandleSuccess(currentTime, blob, Key(), Project, Topic, user, machine, lib, ps)
  {
    var result := CheckAllServices(p);
    finalResult := AllTrue(result);
    Utils.CheckResultsAllHold(Errors(p), PassMessages);
    if finalResult {
      submission := Some(HandleSuccess(currentTime, blob, Key(), Project, Topic, user, machine, lib, ps));
    } else {
      submission := None;
    }
  }
}
