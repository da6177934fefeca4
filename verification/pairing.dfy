/**
 * Obtaining Entertainment API credentials: the button-press pairing loop and
 * the decision between re-pairing and the stored credentials. The wall clock
 * of the pairing window is replaced by the sequence of outcomes of the
 * attempts made before the deadline.
 */
module Pairing {
  import opened Wrappers
  import opened Settings

  /** What one POST to the bridge's `/api` endpoint produced. */
  datatype Attempt =
    | SuccessBody(username: Option<string>, clientkey: Option<string>)  // first item holds "success"
    | ErrorBody(description: string)                                     // first item holds "error"
    | RequestFailed(message: string)                                     // a requests exception
    | Unrecognised                                                       // an empty or non-list body, or a first item with neither key

  /** An attempt that completes pairing: a success carrying both a username and a client key. */
  predicate Paired(a: Attempt)
  {
    a.SuccessBody? && Truthy(a.username) && Truthy(a.clientkey)
  }

  /** Index `i` is the first attempt that completes pairing. */
  ghost predicate FirstPaired(attempts: seq<Attempt>, i: int)
  {
    0 <= i < |attempts| && Paired(attempts[i]) && forall j :: 0 <= j < i ==> !Paired(attempts[j])
  }

  /** The description of the most recent error body or request failure, if any. */
  function LastError(attempts: seq<Attempt>): Option<string>
  {
    if attempts == [] then None
    else
      match attempts[|attempts| - 1]
      case ErrorBody(d) => Some(d)
      case RequestFailed(m) => Some(m)
      case _ => LastError(attempts[..|attempts| - 1])
  }

  datatype PairingError = PairingTimeout(lastErr: Option<string>)

  /**
   * The pairing loop. It returns the username and client key of the first
   * attempt that carries both and makes no attempt after it; successes that
   * lack either field, and every other outcome, let the loop go on. With no
   * attempt left it fails, carrying the last error seen (the value the source prints). `used` is the number
   * of attempts made.
   */
  method CreateEntertainmentUser(attempts: seq<Attempt>)
    returns (r: Result<(string, string), PairingError>, used: nat)
    ensures used <= |attempts|
    ensures r.Success? <==> exists i :: 0 <= i < |attempts| && Paired(attempts[i])
    ensures r.Success? ==>
              && FirstPaired(attempts, used - 1)
              && r.value == (attempts[used - 1].username.value, attempts[used - 1].clientkey.value)
              && r.value.0 != "" && r.value.1 != ""
    ensures r.Failure? ==> used == |attempts| && r.error == PairingTimeout(LastError(attempts))
  {
    var lastErr: Option<string> := None;
    var n := 0;
    while n < |attempts|
      invariant 0 <= n <= |attempts|
      invariant forall j :: 0 <= j < n ==> !Paired(attempts[j])
      invariant lastErr == LastError(attempts[..n])
    {
      var outcome := attempts[n];
      assert attempts[..n + 1][..n] == attempts[..n];
      match outcome {
        case SuccessBody(username, clientkey) =>
          if Truthy(username) && Truthy(clientkey) {
            assert FirstPaired(attempts, n);
            return Success((username.value, clientkey.value)), n + 1;
          }
        case ErrorBody(description) =>
          lastErr := Some(description);
        case RequestFailed(message) =>
          lastErr := Some(message);
        case Unrecognised =>
      }
      n := n + 1;
    }
    assert attempts[..n] == attempts;
    r, used := Failure(PairingTimeout(lastErr)), n;
  }

  /** A bridge that only ever answers "link button not pressed" leads to a timeout carrying it. */
  lemma {:induction false} ButtonNeverPressed(attempts: seq<Attempt>, description: string)
    requires |attempts| > 0
    requires forall i :: 0 <= i < |attempts| ==> attempts[i] == ErrorBody(description)
    ensures forall i :: 0 <= i < |attempts| ==> !Paired(attempts[i])
    ensures LastError(attempts) == Some(description)
  {
  }

  /** Outcomes that are neither errors nor request failures leave the reported error as it was. */
  lemma {:induction false} LastErrorSkipsQuietOutcomes(attempts: seq<Attempt>, quiet: seq<Attempt>)
    requires forall i :: 0 <= i < |quiet| ==> quiet[i].SuccessBody? || quiet[i].Unrecognised?
    ensures LastError(attempts + quiet) == LastError(attempts)
  {
    if quiet != [] {
      var init := quiet[..|quiet| - 1];
      assert (attempts + quiet)[..|attempts + quiet| - 1] == attempts + init;
      LastErrorSkipsQuietOutcomes(attempts, init);
    } else {
      assert attempts + quiet == attempts;
    }
  }

  datatype CredentialError =
    | PairingFailed(lastErr: Option<string>)  // re-pairing timed out
    | MissingClientKey                        // a username without a client key
    | NoCredentials                           // neither

  datatype Credentials = Credentials(username: string, clientkey: string, cfg: Config)

  /** `app_key or cfg.get("app_key")`: the explicit key unless it is empty or absent. */
  function ChosenUsername(appKey: Option<string>, cfg: Config): Option<string>
  {
    if Truthy(appKey) then appKey else Get(cfg, "app_key")
  }

  /**
   * With `forceRepair`, pair (using the given attempt outcomes) and replace both
   * stored credentials by the new pair, stamping the configuration. Otherwise
   * use the chosen username and the stored client key when both are present,
   * and fail with a distinct error when only the username is, or when neither is.
   */
  method EnsureAppKey(appKey: Option<string>, cfg: Config, forceRepair: bool, attempts: seq<Attempt>, now: string)
    returns (r: Result<Credentials, CredentialError>)
    ensures forceRepair ==>
              (r.Success? <==> exists i :: 0 <= i < |attempts| && Paired(attempts[i]))
    ensures forceRepair && r.Success? ==>
              && r.value.username != "" && r.value.clientkey != ""
              && (exists i :: FirstPaired(attempts, i)
                              && attempts[i].username == Some(r.value.username)
                              && attempts[i].clientkey == Some(r.value.clientkey))
              && r.value.cfg == cfg["app_key" := r.value.username]
                                   ["clientkey" := r.value.clientkey]
                                   ["updated_at" := Stamp(now)]
    ensures forceRepair && r.Failure? ==> r.error == PairingFailed(LastError(attempts))
    ensures !forceRepair ==>
              (r.Success? <==> Truthy(ChosenUsername(appKey, cfg)) && Truthy(Get(cfg, "clientkey")))
    ensures !forceRepair && r.Success? ==>
              r.value == Credentials(ChosenUsername(appKey, cfg).value, cfg["clientkey"], cfg)
    ensures !forceRepair && r.Failure? ==>
              r.error == (if Truthy(ChosenUsername(appKey, cfg)) then MissingClientKey else NoCredentials)
  {
    if forceRepair {
      var paired, used := CreateEntertainmentUser(attempts);
      if paired.Failure? {
        return Failure(PairingFailed(paired.error.lastErr));
      }
      var (username, clientkey) := paired.value;
      var updated := cfg["app_key" := username]["clientkey" := clientkey]["updated_at" := Stamp(now)];
      return Success(Credentials(username, clientkey, updated));
    }
    var username := ChosenUsername(appKey, cfg);
    var clientkey := Get(cfg, "clientkey");
    if Truthy(username) && Truthy(clientkey) {
      return Success(Credentials(username.value, clientkey.value, cfg));
    }
    if Truthy(username) && !Truthy(clientkey) {
      return Failure(MissingClientKey);
    }
    return Failure(NoCredentials);
  }
}
