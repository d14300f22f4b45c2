/** common/utils.go: turning check results into one verdict, and the two
    input-normalising rules (blank-to-default, URL scheme). */
module Utils {
  import opened Outcomes
  import opened Text

  /** Every element of `xs` is true. */
  predicate AllHold(xs: seq<bool>) {
    forall i | 0 <= i < |xs| :: xs[i]
  }

  /** CheckResult: a check passes exactly when its error is nil, whatever
      the pass message is (the message and the error only go to the log). */
  function CheckResult(err: Outcome, passMessage: string): (passed: bool)
    ensures passed <==> err == Nil
  {
    err.Nil?
  }

  /** Applying CheckResult to a list of check errors gives a list that is all
      true exactly when every error is nil; this is how every activity turns
      its checks into the list it hands to AllTrue. */
  lemma CheckResultsAllHold(errs: seq<Outcome>, messages: seq<string>)
    requires |messages| == |errs|
    ensures AllHold(CheckResults(errs, messages)) <==> forall i | 0 <= i < |errs| :: errs[i] == Nil
    decreases |errs|
  {
  }

  /** The list of verdicts of several checks, in order. */
  function CheckResults(errs: seq<Outcome>, messages: seq<string>): (r: seq<bool>)
    requires |messages| == |errs|
    ensures |r| == |errs|
    ensures forall i | 0 <= i < |errs| :: r[i] == CheckResult(errs[i], messages[i])
    decreases |errs|
  {
    if errs == [] then [] else [CheckResult(errs[0], messages[0])] + CheckResults(errs[1..], messages[1..])
  }

  /** AllTrue: true when no element is false (so true for the empty list).
      The loop stops at the first false element; `stop` is the index where it
      stopped, so nothing after it was looked at. */
  method AllTrue(arr: seq<bool>) returns (r: bool, ghost stop: nat)
    ensures r <==> AllHold(arr)
    ensures stop <= |arr|
    ensures r ==> stop == |arr|
    ensures !r ==> stop < |arr| && !arr[stop] && forall i | 0 <= i < stop :: arr[i]
  {
    var i := 0;
    while i < |arr|
      invariant 0 <= i <= |arr|
      invariant forall j | 0 <= j < i :: arr[j]
    {
      if !arr[i] {
        return false, i;
      }
      i := i + 1;
    }
    return true, i;
  }

  /** The blank-to-default rule of CollectInfo, applied to the line read
      from standard input (the prompt and the read are not modelled): the
      trimmed line, or `defaultValue` when the trimmed line is empty. */
  function CollectInfo(line: string, defaultValue: string): (value: string)
    ensures value == defaultValue || value == TrimSpace(line)
    ensures TrimSpace(line) == "" ==> value == defaultValue
    ensures TrimSpace(line) != "" ==> value == TrimSpace(line) && value != ""
  {
    var v := TrimSpace(line);
    if v == "" then defaultValue else v
  }

  /** What CollectInfo returns needs no further trimming, provided the default
      has no white space at its ends, and it is empty only when both the
      trimmed line and the default are. */
  lemma CollectInfoTrimmed(line: string, defaultValue: string)
    requires TrimSpace(defaultValue) == defaultValue
    ensures TrimSpace(CollectInfo(line, defaultValue)) == CollectInfo(line, defaultValue)
    ensures CollectInfo(line, defaultValue) == "" <==> TrimSpace(line) == "" && defaultValue == ""
  {
    TrimSpaceIdempotent(line);
  }

  /** Entering the value CollectInfo produced gives the same value again. */
  lemma CollectInfoStable(line: string, defaultValue: string)
    requires TrimSpace(defaultValue) == defaultValue
    ensures CollectInfo(CollectInfo(line, defaultValue), defaultValue) == CollectInfo(line, defaultValue)
  {
    CollectInfoTrimmed(line, defaultValue);
  }

  /** Either accepted scheme prefix is present. */
  predicate HasScheme(url: string) {
    HasPrefix(url, "http://") || HasPrefix(url, "https://")
  }

  /** EnsureHTTPPrefix: a URL that already starts with "http://" or
      "https://" is returned unchanged; anything else gets "http://" in front. */
  function EnsureHTTPPrefix(domain: string): (url: string)
    ensures HasScheme(domain) ==> url == domain
    ensures !HasScheme(domain) ==> url == "http://" + domain
  {
    if HasScheme(domain) then domain else "http://" + domain
  }

  /** The result always carries a scheme, and normalising it again changes nothing. */
  lemma EnsureHTTPPrefixIdempotent(domain: string)
    ensures HasScheme(EnsureHTTPPrefix(domain))
    ensures EnsureHTTPPrefix(EnsureHTTPPrefix(domain)) == EnsureHTTPPrefix(domain)
  {
  }
}
