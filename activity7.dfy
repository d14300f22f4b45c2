/** activity7/main.go: the Docker Compose activity. Its `main` runs the
    probes one after another, clearing a single `check` flag whenever one
    fails, posts a todo item when the todo service answers, and publishes the
    completion record when the flag survived. The file carries its own copies
    of the common checks; the ones that differ from the common code are
    defined here, the verbatim ones delegate to the common model. */
module Activity7 {
  import opened Outcomes
  import opened Text
  import opened Html
  import opened Utils
  import Checks
  import opened Reporting

  const NetworkName := "todo-net"
  const NotificationUrl := "http://localhost:8000/notification"
  const Project := "sds-grader"
  const Topic := "activity7"
  const ContainerNames: seq<string> := ["webapp", "todo-service", "notification-service", "redis", "api-gateway"]

  /** The decryption key: the first 32 characters of the notification URL, as bytes. */
  function Key(): (key: seq<byte>)
    ensures |key| == KeySize
  {
    KeyIsAscii();
    AsciiBytes(NotificationUrl[..32])
  }

  lemma KeyIsAscii()
    ensures |NotificationUrl| == 34
    ensures IsAscii(NotificationUrl[..32])
  {
    var u := NotificationUrl[..32];
    assert u == "http://localhost:8000/notificati";
  }

  // ------------------------------------------------------------------
  // The copies that differ from the common code
  // ------------------------------------------------------------------

  /** checkHTTPStatus: a bool, not an error; a transport error passes only if
      it mentions "connection refused" and 404 was expected. */
  function CheckHTTPStatus(reply: Call<Response<()>>, expectedStatus: int): (ok: bool)
    ensures ok <==> Checks.AbsenceByRefusal(reply, expectedStatus, "connection refused")
                    || (reply.Returned? && reply.value.statusCode == expectedStatus)
  {
    match reply
    case Failed(t) => Contains(t, "connection refused") && expectedStatus == StatusNotFound
    case Returned(resp) => resp.statusCode == expectedStatus
  }

  /** Every reply this copy accepts, the common one accepts too. */
  lemma HTTPStatusStricterThanCommon(reply: Call<Response<()>>, expectedStatus: int, errorMsg: string)
    ensures CheckHTTPStatus(reply, expectedStatus) ==> Checks.CheckHTTPStatus(reply, expectedStatus, errorMsg).Nil?
    ensures reply.Returned? ==> (CheckHTTPStatus(reply, expectedStatus) <==> Checks.CheckHTTPStatus(reply, expectedStatus, errorMsg).Nil?)
  {
    if reply.Failed? && Contains(reply.text, "connection refused") {
      assert "connection " + "refused" == "connection refused";
      ContainsTail(reply.text, "connection ", "refused");
    }
  }

  /** A bare "refused" transport error on an endpoint expected to be absent
      passes the common check but not this one. */
  lemma RefusedWithoutConnection(errorMsg: string)
    ensures Checks.CheckHTTPStatus(Failed("refused"), StatusNotFound, errorMsg) == Nil
    ensures !CheckHTTPStatus(Failed("refused"), StatusNotFound)
  {
  }

  /** sendPostRequest: as the common one, but only a 200 reply is accepted. */
  function SendPostRequest(check: bool, ch: Checks.PostChannel): (r: Outcome)
    ensures ch.marshal(Checks.PostPayload(check)).Failed? ==>
      r == Fail(MarshalFailed(ch.marshal(Checks.PostPayload(check)).text))
    ensures r.Nil? <==>
      Checks.PostReply(check, ch).Some? && Checks.PostReply(check, ch).value.Returned?
      && Checks.PostReply(check, ch).value.value.statusCode == StatusOK
    ensures Checks.PostReply(check, ch).Some? && Checks.PostReply(check, ch).value.Failed? ==>
      r == Fail(PostFailed(Checks.PostReply(check, ch).value.text))
    ensures Checks.PostReply(check, ch).Some? && Checks.PostReply(check, ch).value.Returned? && r.Fail? ==>
      r == Fail(PostStatus(Checks.PostReply(check, ch).value.value.statusCode))
  {
    match ch.marshal(Checks.PostPayload(check))
    case Failed(t) => Fail(MarshalFailed(t))
    case Returned(body) =>
      match ch.send(body)
      case Failed(t) => Fail(PostFailed(t))
      case Returned(resp) =>
        if resp.statusCode == StatusOK then Nil else Fail(PostStatus(resp.statusCode))
  }

  /** This copy accepts a subset of what the common one accepts; a 201 reply
      separates them. */
  lemma PostStricterThanCommon(check: bool, ch: Checks.PostChannel)
    ensures SendPostRequest(check, ch).Nil? ==> Checks.SendPostRequest(check, ch).Nil?
    ensures Checks.PostReply(check, ch) == Some(Returned(Response(StatusCreated, ()))) ==>
      Checks.SendPostRequest(check, ch).Nil? && SendPostRequest(check, ch) == Fail(PostStatus(StatusCreated))
  {
  }

  /** checkTodoWebapp: as the common one, except that a missing title and a
      page that does not answer 200 give the same "not found" error, and the
      page's status is requested only once the title was found. */
  function CheckTodoWebapp(page: Call<Response<seq<Token>>>, pageStatus: Call<Response<()>>,
                           script: Call<Response<()>>): (r: Outcome)
    ensures r.Nil? <==>
      page.Returned? && page.value.statusCode == StatusOK
      && pageStatus.Returned? && pageStatus.value.statusCode == StatusOK
      && Checks.Scan(page.value.body).titleFound && Checks.Scan(page.value.body).scriptFound
      && script.Returned? && script.value.statusCode == StatusOK
    ensures Checks.PageContent(page).1.Fail? ==> r == Fail(WebappContentError(Checks.PageContent(page).1.error))
    ensures (Checks.PageContent(page).1.Nil?
             && (!Checks.PageContent(page).0.titleFound || !CheckHTTPStatus(pageStatus, StatusOK))) ==>
      r == Fail(WebappNotFound)
    ensures r != Fail(WebappTitleMissing)
    ensures (Checks.PageContent(page).1.Nil? && Checks.PageContent(page).0.titleFound
             && CheckHTTPStatus(pageStatus, StatusOK) && !Checks.PageContent(page).0.scriptFound) ==>
      r == Fail(WebappScriptMissing)
    ensures (Checks.PageContent(page).1.Nil? && Checks.PageContent(page).0.titleFound
             && CheckHTTPStatus(pageStatus, StatusOK) && Checks.PageContent(page).0.scriptFound
             && Checks.CheckScriptExists(script).Err?) ==>
      r == Fail(ScriptUrlError(Checks.CheckScriptExists(script).error))
  {
    var (flags, err) := Checks.PageContent(page);
    if err.Fail? then Fail(WebappContentError(err.error))
    else if !flags.titleFound || !CheckHTTPStatus(pageStatus, StatusOK) then Fail(WebappNotFound)
    else if !flags.scriptFound then Fail(WebappScriptMissing)
    else
      match Checks.CheckScriptExists(script)
      case Err(e) => Fail(ScriptUrlError(e))
      case Ok(_) => Nil
  }

  /** The two webapp checks pass on exactly the same observations; they differ
      in the error for a page without the title. */
  lemma TodoWebappSameVerdict(page: Call<Response<seq<Token>>>, pageStatus: Call<Response<()>>,
                              script: Call<Response<()>>)
    ensures CheckTodoWebapp(page, pageStatus, script).Nil? <==> Checks.CheckTodoWebapp(page, pageStatus, script).Nil?
    ensures (Checks.PageContent(page).1.Nil? && !Checks.PageContent(page).0.titleFound
             && pageStatus == Returned(Response(StatusOK, ()))) ==>
      CheckTodoWebapp(page, pageStatus, script) == Fail(WebappNotFound)
      && Checks.CheckTodoWebapp(page, pageStatus, script) == Fail(WebappTitleMissing)
  {
  }

  // ------------------------------------------------------------------
  // Verbatim copies
  // ------------------------------------------------------------------

  /** checkRunningContainers, identical to the common check. */
  method CheckRunningContainers(names: seq<string>, ps: Call<string>) returns (r: Outcome)
    ensures ps.Failed? ==> r == Fail(ContainerListFailed(ps.text))
    ensures ps.Returned? ==> (r.Nil? <==> forall k | 0 <= k < |names| :: Contains(ps.value, names[k]))
    ensures ps.Returned? && r.Fail? ==>
      exists k | 0 <= k < |names| :: Checks.FirstMissingAt(ps.value, names, k) && r.error == ContainerMissing(names[k])
  {
    r := Checks.CheckRunningContainers(names, ps);
  }

  /** checkPageContent, identical to the common scan: the flags found are
      those of the token stream, and each stands for what the page holds. */
  method CheckPageContent(page: Call<Response<seq<Token>>>)
    returns (titleFound: bool, scriptFound: bool, err: Outcome)
    ensures (Checks.PageFlags(titleFound, scriptFound), err) == Checks.PageContent(page)
    ensures titleFound ==> page.Returned? && exists i | 0 <= i < |page.value.body| :: Checks.TitleAt(page.value.body, i)
    ensures scriptFound ==> page.Returned? && exists i | 0 <= i < |page.value.body| :: Checks.IsBundleScript(page.value.body[i])
  {
    titleFound, scriptFound, err := Checks.CheckPageContent(page);
    if page.Returned? {
      Checks.ScanSound(page.value.body);
    }
  }

  // ------------------------------------------------------------------
  // main
  // ------------------------------------------------------------------

  /** What each probe of `main` observes. Every GET is a separate request,
      so the page's two fetches are two observations. */
  datatype Probes = Probes(
    networks: Call<string>,                // docker network ls
    containers: Call<string>,              // docker ps
    page: Call<Response<seq<Token>>>,      // the webapp page, tokenized
    pageStatus: Call<Response<()>>,        // the webapp page, fetched again for its status
    script: Call<Response<()>>,            // the bundle script
    gateway: Call<Response<()>>,           // localhost:8000
    hiddenPort: Call<Response<()>>,        // localhost:9000
    todoService: Call<Response<()>>,       // the todo service behind the gateway
    post: Checks.PostChannel,              // the POST to the todo service
    notification: Call<Response<()>>)      // the notification service behind the gateway

  /** The verdicts of the seven probes, in the order `main` runs them. */
  function Verdicts(p: Probes): (v: seq<bool>)
    ensures |v| == 7
  {
    [ Checks.CheckNetwork(NetworkName, p.networks).Nil?,
      Checks.RunningContainersVerdict(ContainerNames, p.containers).Nil?,
      CheckTodoWebapp(p.page, p.pageStatus, p.script).Nil?,
      CheckHTTPStatus(p.gateway, StatusNotFound),
      CheckHTTPStatus(p.hiddenPort, StatusNotFound),
      CheckHTTPStatus(p.todoService, StatusOK),
      CheckHTTPStatus(p.notification, StatusOK) ]
  }

  /** The POST that `main` sends, with the value of `check` it carried. */
  datatype PostAttempt = PostAttempt(completed: bool, outcome: Outcome)

  /** The publication step of `main`: the same sequence as HandleSuccess, with
      the key fixed and its own wording for a failed publish (the log's
      decoration characters are left out). */
  const PublishRetryContext := "Failed to publish message .. PLEASE TRY AGAIN"

  function Publish(currentTime: int, blob: seq<byte>, user: UserInfo, machine: MachineInfo,
                   lib: CryptoLib, ps: PubSub): (r: Submission)
    ensures DecryptJSON(Key(), blob, lib).Err? ==> r == Aborted(DecryptContext, Because(DecryptJSON(Key(), blob, lib).error))
    ensures r.Published? ==>
      DecryptJSON(Key(), blob, lib).Ok?
      && ps.newClient(Project, DecryptJSON(Key(), blob, lib).value).Returned?
      && r == Published(Topic, CreateMessage(currentTime, user.id, user.name, machine.hostName, machine.user,
                                             machine.osFamily, machine.version, machine.up, machine.ip, machine.pub))
    ensures DecryptJSON(Key(), blob, lib).Ok? && ps.newClient(Project, DecryptJSON(Key(), blob, lib).value).Failed? ==>
      r == Aborted(ClientContext, Foreign(ps.newClient(Project, DecryptJSON(Key(), blob, lib).value).text))
    ensures DecryptJSON(Key(), blob, lib).Ok? && ps.newClient(Project, DecryptJSON(Key(), blob, lib).value).Returned? ==>
      var client := ps.newClient(Project, DecryptJSON(Key(), blob, lib).value).value;
      var message := CreateMessage(currentTime, user.id, user.name, machine.hostName, machine.user,
                                   machine.osFamily, machine.version, machine.up, machine.ip, machine.pub);
      (r.Published? <==> PublishMessage(client, Topic, message, ps).Nil?)
      && (PublishMessage(client, Topic, message, ps).Fail? ==>
            r == Aborted(PublishRetryContext, Because(PublishMessage(client, Topic, message, ps).error)))
    ensures r.Aborted? && r.context == PublishRetryContext ==>
      DecryptJSON(Key(), blob, lib).Ok? && ps.newClient(Project, DecryptJSON(Key(), blob, lib).value).Returned?
      && PublishMessage(ps.newClient(Project, DecryptJSON(Key(), blob, lib).value).value, Topic,
                        CreateMessage(currentTime, user.id, user.name, machine.hostName, machine.user,
                                      machine.osFamily, machine.version, machine.up, machine.ip, machine.pub), ps).Fail?
  {
    var acc := DecryptJSON(Key(), blob, lib);
    if acc.Err? then Aborted(DecryptContext, Because(acc.error))
    else
      match ps.newClient(Project, acc.value)
      case Failed(t) => Aborted(ClientContext, Foreign(t))
      case Returned(client) =>
        var message := Message(currentTime, user.id, user.name, machine.hostName, machine.user,
                               machine.osFamily, machine.version, machine.up, machine.ip, machine.pub);
        match PublishMessage(client, Topic, message, ps)
        case Fail(e) => Aborted(PublishRetryContext, Because(e))
        case Nil => Published(Topic, message)
  }

  /** main: `check` starts true and each failing probe sets it to false, so
      its final value is the conjunction of all seven verdicts. The POST is
      sent only when the todo service answered 200, carries the value `check`
      had at that moment, and its failure leaves `check` alone. The record is
      published exactly when `check` is still true at the end. */
  method Run(p: Probes, currentTime: int, blob: seq<byte>, user: UserInfo, machine: MachineInfo,
             lib: CryptoLib, ps: PubSub)
    returns (check: bool, post: Option<PostAttempt>, submission: Option<Submission>)
    ensures check == AllHold(Verdicts(p))
    ensures post.Some? <==> CheckHTTPStatus(p.todoService, StatusOK)
    ensures post.Some? ==>
      post.value == PostAttempt(AllHold(Verdicts(p)[..5]), SendPostRequest(AllHold(Verdicts(p)[..5]), p.post))
    ensures submission.Some? <==> check
    ensures submission.Some? ==> submission.value == Publish(currentTime, blob, user, machine, lib, ps)
  {
    ghost var v := Verdicts(p);
    check := true;
    assert v[..0] == [];

    var err := Checks.CheckNetwork(NetworkName, p.networks);
    if err.Fail? {
      check := false;
    }
    Step(v, 0, check, err.Nil?);

    err := CheckRunningContainers(ContainerNames, p.containers);
    if err.Fail? {
      check := false;
    }
    Step(v, 1, check, err.Nil?);

    err := CheckTodoWebapp(p.page, p.pageStatus, p.script);
    if err.Fail? {
      check := false;
    }
    Step(v, 2, check, err.Nil?);

    if !CheckHTTPStatus(p.gateway, StatusNotFound) {
      check := false;
    }
    Step(v, 3, check, CheckHTTPStatus(p.gateway, StatusNotFound));
    if !CheckHTTPStatus(p.hiddenPort, StatusNotFound) {
      check := false;
    }
    Step(v, 4, check, CheckHTTPStatus(p.hiddenPort, StatusNotFound));

    if !CheckHTTPStatus(p.todoService, StatusOK) {
      check := false;
      post := None;
    } else {
      var e := SendPostRequest(check, p.post);
      post := Some(PostAttempt(check, e));
    }
    Step(v, 5, check, CheckHTTPStatus(p.todoService, StatusOK));

    if !CheckHTTPStatus(p.notification, StatusOK) {
      check := false;
    }
    Step(v, 6, check, CheckHTTPStatus(p.notification, StatusOK));
    assert v[..7] == v;

    if check {
      submission := Some(Publish(currentTime, blob, user, machine, lib, ps));
    } else {
      submission := None;
    }
  }

  /** One step of `main`: if `check` was the conjunction of the first `i`
      verdicts and the `i`-th probe's verdict is `passed`, clearing `check`
      on failure makes it the conjunction of the first `i + 1`. */
  lemma Step(v: seq<bool>, i: nat, check: bool, passed: bool)
    requires i < |v| && v[i] == passed
    requires check == (AllHold(v[..i]) && passed)
    ensures check == AllHold(v[..i + 1])
  {
  }
}
