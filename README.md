# sds-grader, modelled in Dafny

sds-grader is a set of command-line graders for course activities. Each
activity binary probes the student's environment with docker, kubectl,
terraform and HTTP. It folds the probe results into one pass/fail verdict.
On a pass it decrypts an embedded service-account credential (AES-256-GCM)
and publishes a completion record to Pub/Sub.

This project models the decision rules inside those probes. It also models
how the activities combine them. It covers:

- `common/utils.go`: the verdict helpers and the input-normalising rules;
- `common/checks.go`: the probes' decision logic;
- `common/reporting.go`: the decryption guard chain, the record and the
  publish sequence;
- the `main.go` of activities 7, 8 and 9, with the copies of the common
  code they carry.

Each probe's raw observation is a parameter of the model:

- a command's output or failure text;
- an HTTP status code, transport-error text or body;
- the page's token stream;
- the answer of `os.Stat`.

A Go `error` is `Outcome` (`Nil` or `Fail(e)`). Each `fmt.Errorf` site is
one `Error` constructor, which carries the values the message formats.
Foreign routines are functions returning `Call<T>`, that is a value or a
failure text. They cover base64, AES, GCM, JSON and the Pub/Sub client.

Modules:

- `Outcomes`: errors, results, foreign calls, HTTP responses.
- `Text`: the parts of Go's `strings` and `unicode.IsSpace` the checks use.
- `Html`: the tokens of `golang.org/x/net/html`.
- `Utils`, `Checks` and `Reporting`: the three common files. `HandleError`
  from `common/utils.go` is in `Reporting`, because it returns an aborted
  submission, which is a `Reporting` value.
- `Activity7`, `Activity8` and `Activity9`: the activity binaries.

Loops in the source are methods with loop invariants. Each is proved equal to
a function that says what the loop computes, and the properties are proved
about those functions. For the token loop of `checkPageContent` (common/checks.go:142-165)
that function is `Checks.Scan`, which `Checks.PageContent` wraps; the rows for
`Checks.ScanSound`, `Checks.ScanWithoutTitles` and `Checks.ScanExtends` state its
properties.

Some activity functions are verbatim copies of common ones. They delegate to
the common model and restate the property they rely on. The copies that
differ have their own definitions, with lemmas comparing them to the common
ones:

- activity 7's `checkHTTPStatus`, `sendPostRequest` and `checkTodoWebapp`;
- activity 8's ten-word `checkKubernetesResources`.

Some copies are used but have no row of their own. The common member models
each of them, since their text is identical:

- activity 7's `checkNetwork`, `checkScriptExists`, `decryptJSON`,
  `publishMessage` and `collectMachineInfo`;
- activity 8's `checkNamespaceExists` (by `Checks.CheckNamespaceExistsAsWritten`,
  since it keeps the "<nil>" text), `checkIngressExists`, `decryptJSON`,
  `createMessage`, `publishMessage`, `handleError`, `collectMachineInfo` and
  `handleSuccess`;
- activity 9's `sendPostRequest`, `sendGetRequest`, `decryptJSON`,
  `createMessage`, `publishMessage`, `handleError`, `collectMachineInfo` and
  `handleSuccess`.

Each `decryptJSON` copy reads the embedded blob instead of a parameter, so
the blob is an explicit input here.

Where the documented behaviour and the code differ, the model follows the
code:

- A transport error counts as "absent, as intended" when its text contains
  `refused`. Only activity 7 insists on `connection refused`.
- `DecryptJSON` does not check that the decoded blob is at least as long as
  the nonce. In Go that case panics.

## Model

| member | source | states |
|---|---|---|
| Utils.CheckResult | common/utils.go:17-26 | a check passes exactly when its error is nil, whatever the pass message |
| Utils.CheckResults | activity8/main.go:59-66 | the verdict list has one entry per check, in order, each the CheckResult of that check's error |
| Utils.CheckResultsAllHold | common/utils.go:17-35 | a list of CheckResult verdicts is all true exactly when every error is nil |
| Utils.AllTrue | common/utils.go:28-35 | true iff no element is false (so true on the empty list); on false it stopped at the first false element and everything before it was true |
| Utils.CollectInfo | common/utils.go:37-48 | a blank (after trimming) line gives the default, any other line gives the trimmed line |
| Utils.CollectInfoTrimmed | common/utils.go:42-47 | with a trimmed default the value needs no further trimming, and it is empty only when line and default both are |
| Utils.CollectInfoStable | common/utils.go:42-47 | entering the value produced gives the same value again |
| Utils.EnsureHTTPPrefix | common/utils.go:50-55 | a URL starting with http:// or https:// is unchanged, anything else gets http:// in front |
| Utils.EnsureHTTPPrefixIdempotent | common/utils.go:50-55 | the result always has a scheme and normalising twice is normalising once |
| Checks.FirstMissingIndex | common/checks.go:97-102 | the index of the first word absent from the output: every earlier word occurs, the word there does not |
| Checks.MissingWord | common/checks.go:97-102 | no word is reported iff every word occurs; a reported word is the first absent one in list order |
| Checks.FirstMissingWord | common/checks.go:97-102 | the early-exit word loop returns exactly the first missing word, or none |
| Checks.CheckNetwork | common/checks.go:25-35 | a listing failure is reported; otherwise pass iff the output contains the network name |
| Checks.GetNetworkName | common/checks.go:37-44 | the raw inspect output, or the lookup failure |
| Checks.DeviationIndex | common/checks.go:56-64 | the first later container whose lookup does not give the first network; all before it do |
| Checks.SameNetworkVerdict | common/checks.go:46-67 | fewer than two names pass; otherwise pass iff the first lookup succeeds and every later lookup gives the same string; a failure names the first differing container |
| Checks.CheckContainersOnSameNetwork | common/checks.go:46-67 | the loop over the later containers computes SameNetworkVerdict |
| Checks.ComposeVerdict | common/checks.go:69-87 | listing failure reported; trimmed output of one line means no projects; otherwise pass iff some line after the header mentions running |
| Checks.ComposeHeaderIgnored | common/checks.go:76-86 | a "running" that occurs only in the header line does not pass |
| Checks.CheckDockerComposeRunning | common/checks.go:69-87 | the line loop computes ComposeVerdict |
| Checks.RunningContainersVerdict | common/checks.go:89-104 | pass iff every name is a substring of the docker ps output; a failure names the first missing name in list order |
| Checks.CheckRunningContainers | common/checks.go:89-104 | the name loop computes RunningContainersVerdict |
| Checks.ContainerMatchIsSubstring | common/checks.go:98 | a name occurring inside another container's name passes, and so does the empty name |
| Checks.ScanSound | common/checks.go:142-165 | the title flag is set only if a title tag is followed by a token whose trimmed data is the todo title; the script flag only if a script tag has src=/static/js/bundle.js |
| Checks.ScanWithoutTitles | common/checks.go:149-163 | on a page without title tags no title is found, and the script flag is set iff some script tag loads the bundle |
| Checks.ScanExtends | common/checks.go:142-165 | flags only go from false to true: reading more tokens never clears a flag a prefix set |
| Checks.PageContent | common/checks.go:131-166 | fetch failures and non-200 replies give an error and no flags; otherwise the flags of the scan and no error |
| Checks.CheckPageContent | common/checks.go:131-166 | the token loop returns exactly PageContent's flags and error |
| Checks.CheckScriptExists | common/checks.go:168-180 | success iff the script URL answers 200, and success always means "exists" |
| Checks.CheckTodoWebapp | common/checks.go:106-129 | pass iff page fetched with 200, status 200, title and bundle script found and script URL 200; content errors first, then status, then title, then "script not found", then the script URL's error wrapped as "error checking script URL" |
| Checks.CheckHTTPStatus | common/checks.go:182-200 | pass iff the status matches exactly, or a transport error mentions "refused" and 404 was expected; every failure reports errorMsg |
| Checks.PostPayload | common/checks.go:205-211 | the posted item is titled "grader" and its completed field is the check flag |
| Checks.SendPostRequest | common/checks.go:202-231 | encoding failure, transport failure and other statuses are reported apart; pass iff the reply is 200 or 201 |
| Checks.SendGetRequest | common/checks.go:233-250 | pass iff the body is read and contains the word; transport and read failures are reported apart |
| Checks.GetIgnoresStatus | common/checks.go:240-249 | the GET verdict does not depend on the status code |
| Checks.CheckNamespaceExistsAsWritten | common/checks.go:252-265 | pass iff the listing contains the namespace; the failure message carries "<nil>" |
| Checks.NamespaceMessageShowsNil | common/checks.go:264 | for namespace grading-ns and a listing "default" the error reads <nil>, not the namespace |
| Checks.CheckNamespaceExists | common/checks.go:252-265 | pass iff the listing contains the namespace; the failure names the namespace |
| Checks.NamespaceCorrectionKeepsVerdict | common/checks.go:261-264 | the corrected and the as-written check pass on the same listings |
| Checks.ResourcesVerdict | common/checks.go:267-285 | pass iff every required word occurs in kubectl get all; a failure reports the first missing word |
| Checks.ResourcesMonotone | common/checks.go:278-282 | requiring a superset of words can only turn passes into failures |
| Checks.CheckKubernetesResources | common/checks.go:267-285 | the word loop over the five fixed words computes ResourcesVerdict |
| Checks.CheckIngressExists | common/checks.go:287-300 | pass iff the kubectl get ingress output contains "ingress"; the failure names the namespace |
| Checks.CheckFilePath | common/checks.go:302-316 | empty path first, then missing suffix, then non-existence; a passing path is non-empty and has the suffix; stat errors other than not-exist pass |
| Reporting.CreateMessage | common/reporting.go:88-101 | each argument lands unchanged in its own field |
| Reporting.CreateMessageInjective | common/reporting.go:88-101 | the record determines the arguments and every record is rebuilt from its fields |
| Reporting.Int64OfUint64 | common/reporting.go:85 | the uint64-to-int conversion keeps the value below 2^63 and wraps it modulo 2^64 into the int64 range otherwise |
| Reporting.CollectMachineInfo | common/reporting.go:81-86 | host fields are copied, uptime converted, and a failed address lookup contributes "" |
| Reporting.SplitNonce | common/reporting.go:143-144 | the nonce is the first NonceSize bytes, the ciphertext the rest, and together they are the decoded blob |
| Reporting.DecryptJSON | common/reporting.go:123-151 | wrong key length is rejected before decoding; base64 failure is reported; plaintext iff every stage succeeds, the blob covers the nonce and Open succeeds, and it is Open's result |
| Reporting.KeyCheckedFirst | common/reporting.go:124-126 | with a wrong-length key the result is the same whatever the blob and the library |
| Reporting.Base64FailureStops | common/reporting.go:128-133 | after a base64 failure the result does not depend on the cipher and GCM routines |
| Reporting.PlaintextFromOpen | common/reporting.go:143-150 | a plaintext is GCM Open's result on a nonce and ciphertext that make up the decoded blob |
| Reporting.PublishMessage | common/reporting.go:103-121 | success iff the record encodes and the publish returns; encoding and publish failures are reported apart |
| Reporting.HandleError | common/utils.go:11-15 | a nil error lets the program continue, any other aborts with the given context |
| Reporting.HandleSuccess | common/reporting.go:38-57 | a decrypt failure aborts with its error; after it, a client failure aborts with the client's text; after both succeed, the record CreateMessage of the inputs is published iff PublishMessage returns nil, and a failed publish aborts with its error |
| Reporting.NoPublishWithoutDecrypt | common/reporting.go:43-53 | when decryption fails nothing is published and the outcome does not depend on Pub/Sub |
| Activity7.Key | activity7/main.go:111 | the first 32 characters of the notification URL form a 32-byte key |
| Activity7.KeyIsAscii | activity7/main.go:36 | the notification URL has 34 characters and its first 32 are ASCII |
| Activity7.CheckHTTPStatus | activity7/main.go:280-298 | pass iff the status matches, or a transport error mentions "connection refused" and 404 was expected |
| Activity7.HTTPStatusStricterThanCommon | activity7/main.go:283-285 | every reply this copy accepts the common one accepts; on replies in hand they agree |
| Activity7.RefusedWithoutConnection | activity7/main.go:283 | a bare "refused" transport error on an expected-404 endpoint passes the common check but not this one |
| Activity7.SendPostRequest | activity7/main.go:391-420 | as the common POST, but pass iff the reply is 200 |
| Activity7.PostStricterThanCommon | activity7/main.go:413-417 | this POST passes only where the common one does; a 201 reply separates them |
| Activity7.CheckTodoWebapp | activity7/main.go:176-195 | same pass condition as the common check; a missing title or a non-200 page both give "not found", never "title missing"; then "script not found", then the script URL's error |
| Activity7.TodoWebappSameVerdict | activity7/main.go:182-184 | both webapp checks pass on the same observations; a titleless page answering 200 is "not found" here and "title missing" in common |
| Activity7.CheckRunningContainers | activity7/main.go:159-174 | pass iff every name occurs in the output; a failure names the first missing one |
| Activity7.CheckPageContent | activity7/main.go:197-232 | flags and error are PageContent's, and each flag set stands for a title or bundle script on the page |
| Activity7.Verdicts | activity7/main.go:52-102 | the seven probe verdicts, in the order main runs them |
| Activity7.Publish | activity7/main.go:106-144 | a decrypt failure aborts with its error; after it, a client failure aborts with the client's text; after both succeed, the record of the inputs is published on topic activity7 iff PublishMessage returns nil, and a failed publish aborts with the "PLEASE TRY AGAIN" wording |
| Activity7.Run | activity7/main.go:47-145 | check is the AND of all seven verdicts; the POST is sent iff the todo service answered 200, carrying the AND of the five earlier verdicts, and leaves check alone; publishing happens iff check |
| Activity7.Step | activity7/main.go:50-102 | clearing check on a failed probe keeps it the AND of the verdicts so far |
| Activity8.Key | activity8/main.go:153 | "http://localhost" twice is a 32-byte key |
| Activity8.CollectNamespace | activity8/main.go:70-81 | a blank line gives "default", any other the trimmed line; never empty |
| Activity8.CollectNamespaceIsCollectInfo | activity8/main.go:75-78 | collectNamespace is CollectInfo with default "default" |
| Activity8.CheckKubernetesResources | activity8/main.go:101-128 | the word loop over the ten words computes ResourcesVerdict: all ten must occur, the first missing is reported |
| Activity8.ResourcesStricterThanCommon | activity8/main.go:103-108 | passing the ten words implies passing the common five; output without service/nginx fails |
| Activity8.AllTrue | activity8/main.go:186-193 | true iff no element is false |
| Activity8.CheckResult | activity8/main.go:175-184 | true iff the error is nil |
| Activity8.CheckHTTPStatus | activity8/main.go:227-245 | pass iff the status matches, or "refused" when 404 was expected; failures report errorMsg |
| Activity8.SendPostRequest | activity8/main.go:353-382 | pass iff the POST reply is 200 or 201 |
| Activity8.SendGetRequest | activity8/main.go:384-401 | pass iff the body contains the word, whatever the status |
| Activity8.Errors | activity8/main.go:59-66 | the six check errors, in list order, with the namespace failure carrying "<nil>" as activity 8's copy writes it |
| Activity8.CheckAllServices | activity8/main.go:56-68 | all six checks run and the result is their six CheckResult verdicts in order |
| Activity8.Run | activity8/main.go:42-54 | the final result is true iff all six errors are nil, and HandleSuccess runs iff it is true, which publishes the record iff decryption, client creation and the publish succeed |
| Activity9.Key | activity9/main.go:145 | "http://localhost" twice is a 32-byte key |
| Activity9.CheckFilePath | activity9/main.go:75-89 | empty path first, then suffix, then existence; a passing path has the suffix |
| Activity9.EnsureHTTPPrefix | activity9/main.go:133-138 | http:// and https:// URLs unchanged, others get http://; the result has a scheme |
| Activity9.CollectInfo | activity9/main.go:120-131 | blank line gives the default, any other the trimmed line |
| Activity9.AllTrue | activity9/main.go:178-185 | true iff no element is false |
| Activity9.CheckResult | activity9/main.go:167-176 | true iff the error is nil |
| Activity9.CheckRunningContainers | activity9/main.go:91-106 | computes RunningContainersVerdict: every name must occur, the first missing is reported |
| Activity9.CheckHTTPStatus | activity9/main.go:219-237 | pass iff the status matches, or "refused" when 404 was expected |
| Activity9.Errors | activity9/main.go:62-71 | the eight check errors, in list order |
| Activity9.BlankPathFails | activity9/main.go:60-63 | a blank path answer fails the first check with the empty-path error |
| Activity9.CheckAllServices | activity9/main.go:57-73 | all eight checks run and the result is their eight CheckResult verdicts in order |
| Activity9.Run | activity9/main.go:43-55 | the final result is true iff all eight errors are nil, a pass implies a non-empty .tf path, and HandleSuccess runs iff it passes, which publishes the record iff decryption, client creation and the publish succeed |

## Left out

- Running docker, kubectl and terraform. A command's output or failure text is a parameter.
- `CheckCmdExitCode` and activity 9's `checkCmdExitCode`. Activity 9's three Terraform results are given as errors.
- HTTP requests, `GetLocalIP`, `GetPublicIP` and gopsutil's `host.Info`. Their results are parameters. `CollectMachineInfo` keeps only the rule that a failed lookup gives "".
- Base64, AES-256, GCM, JSON encoding and the Pub/Sub client. Each is a function that returns a value or fails. The payload's JSON form and the record's JSON form are not modelled.
- The HTML tokenizer. A page is the token sequence it would produce. The end of the sequence stands for its ErrorToken, whether that comes from the end of the input or a read error.
- Standard input. `CollectUserInfo`'s prompt-until-integer loop is not modelled; the student's id and name are given. `CollectInfo` and `collectNamespace` take the line that was read.
- Logging, including the pass and fail lines of every check and the success banner. `log.Fatalf` is an `Aborted` submission.
- `time.Now`. The record's timestamp is a parameter, and the POST payload's `detail` and `duedate` fields are not modelled.
- The URL of each request. Probes are per-request observations, and a `PostChannel` is already bound to its URL.
- Repeated `docker inspect` calls. `GetNetworkName` and `SameNetworkVerdict` take the inspect answer as a function of the container name, so a name listed twice is assumed to get the same answer both times.
- Checks.CheckHTTPStatus: the Go code passes `errorMsg` to `fmt.Errorf` as a format string. The model keeps it verbatim, which matches for every message in the repository because none contains `%`.
- Reporting.DecryptJSON: a decoded blob shorter than the nonce size panics in Go. Here it is the error `NonceOutOfRange`.
- Invalid UTF-8. A Go string is bytes; `Text` works on Unicode code points, so the substring, prefix, suffix, split and trim rules are modelled only for valid UTF-8 text, and any byte-level behaviour on invalid input is not.
- Reporting.Int64OfUint64: it assumes a 64-bit platform (`int` is 64 bits wide).
- Activities 1 to 5. They are lists of calls into the common code with constant URLs.
- `Close` calls and `defer`. Releasing response bodies and the Pub/Sub client has no effect on any verdict.

## Findings

| source | as written | input that shows it | evidently intended | confidence | as-written member | corrected member |
|---|---|---|---|---|---|---|
| common/checks.go:264 | the "Couldn't find namespace" error formats `err`, which is nil on that path, so it reads "Couldn't find namespace <nil>." (activity8/main.go:98 has the same line, and the activity 8 model keeps it as written) | namespace "grading-ns" with a listing that shows only "default" | the error names the namespace that was not found | not executed | Checks.NamespaceMessageShowsNil | Checks.CheckNamespaceExists |
