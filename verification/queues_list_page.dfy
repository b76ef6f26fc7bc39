/**
 * The list of the professional's queues, with the inline form that creates
 * a queue.  A queue name that is blank once trimmed is not sent.
 */
module QueuesListPage {
  import opened Wrappers
  import opened Entities
  import ApiClient

  // ---------------------------------------------------------------------
  // `String.prototype.trim`
  // ---------------------------------------------------------------------

  /** The characters `trim` removes: the ECMAScript white space and line terminators. */
  predicate IsJsWhitespace(c: char) {
    var n := c as int;
    // white space: tab, vertical tab, form feed, space, no-break space, byte-order mark
    n == 0x09 || n == 0x0B || n == 0x0C || n == 0x20 || n == 0xA0 || n == 0xFEFF ||
    // the other space separators
    n == 0x1680 || (0x2000 <= n <= 0x200A) || n == 0x202F || n == 0x205F || n == 0x3000 ||
    // line terminators
    n == 0x0A || n == 0x0D || n == 0x2028 || n == 0x2029
  }

  /** Every character is white space (the empty string included). */
  predicate Blank(s: string) {
    forall i :: 0 <= i < |s| ==> IsJsWhitespace(s[i])
  }

  /** Leading white space removed. */
  function TrimStart(s: string): (r: string)
    ensures r == [] <==> Blank(s)
    ensures r != [] ==> !IsJsWhitespace(r[0])
    ensures exists k :: 0 <= k <= |s| && r == s[k..]
    decreases |s|
  {
    if s != [] && IsJsWhitespace(s[0]) then
      var r := TrimStart(s[1..]);
      assert Blank(s) <==> Blank(s[1..]) by {
        if Blank(s[1..]) {
          forall i | 0 <= i < |s| ensures IsJsWhitespace(s[i]) {
            if i > 0 { assert s[i] == s[1..][i - 1]; }
          }
        }
        if Blank(s) {
          forall i | 0 <= i < |s[1..]| ensures IsJsWhitespace(s[1..][i]) {
            assert s[1..][i] == s[i + 1];
          }
        }
      }
      var k :| 0 <= k <= |s[1..]| && r == s[1..][k..];
      assert r == s[k + 1..];
      r
    else
      assert s == s[0..];
      s
  }

  /** Trailing white space removed. */
  function TrimEnd(s: string): (r: string)
    ensures r == [] <==> Blank(s)
    ensures |r| <= |s| && r == s[..|r|]
    decreases |s|
  {
    if s != [] && IsJsWhitespace(s[|s| - 1]) then
      var init := s[..|s| - 1];
      var r := TrimEnd(init);
      assert Blank(s) <==> Blank(init) by {
        if Blank(init) {
          forall i | 0 <= i < |s| ensures IsJsWhitespace(s[i]) {
            if i < |s| - 1 { assert s[i] == init[i]; }
          }
        }
        if Blank(s) {
          forall i | 0 <= i < |init| ensures IsJsWhitespace(init[i]) {
            assert init[i] == s[i];
          }
        }
      }
      r
    else
      assert s != [] ==> !Blank(s);
      s
  }

  /** `s.trim()`: empty exactly when `s` is blank, so `!s.trim()` tests blankness. */
  function Trim(s: string): (r: string)
    ensures r == "" <==> Blank(s)
  {
    var t := TrimStart(s);
    assert t != [] ==> !IsJsWhitespace(t[0]);
    TrimEnd(t)
  }

  // ---------------------------------------------------------------------
  // The page
  // ---------------------------------------------------------------------

  const LoadFailed: string := "Erreur de chargement des files d'attente."
  const QueueCreated: string := "File créée !"
  const UpgradeNeeded: string := "Passez au plan Pro pour créer plus de files"
  const CreateFailed: string := "Erreur de création"

  /** The message of a failed creation: the upgrade hint when the error carries `upgrade`, else the generic one. */
  function CreateFailureMessage(f: Failure): (m: string)
    ensures m == UpgradeNeeded <==> f.upgrade
    ensures m == UpgradeNeeded || m == CreateFailed
  {
    if f.upgrade then UpgradeNeeded else CreateFailed
  }

  class QueuesListPage {
    var queues: seq<QueueWithStats>
    var loading: bool
    var showNewQueueInput: bool
    var newQueueName: string

    constructor ()
      ensures queues == [] && loading && !showNewQueueInput && newQueueName == ""
    {
      queues := [];
      loading := true;
      showNewQueueInput := false;
      newQueueName := "";
    }

    /** `loadQueues()`: a successful fetch replaces the list; loading ends false either way. */
    method LoadQueues(data: Outcome<seq<QueueWithStats>>) returns (notice: Notice)
      modifies this
      ensures data.Ok? ==> queues == data.value && notice == Silent
      ensures data.Err? ==> queues == old(queues) && notice == Error(LoadFailed)
      ensures !loading
      ensures showNewQueueInput == old(showNewQueueInput) && newQueueName == old(newQueueName)
    {
      match data {
        case Ok(qs) =>
          queues := qs;
          notice := Silent;
        case Err(_) =>
          notice := Error(LoadFailed);
      }
      loading := false;
    }

    /**
     * The page's effects on mount: a visitor who is not logged in is sent to
     * the login page and nothing is loaded; for a logged-in one the list is
     * loaded as `loadQueues()` does, a failure keeping it and reporting.
     */
    method Mount(isAuthenticated: bool, data: Outcome<seq<QueueWithStats>>) returns (nav: Navigation, loaded: bool, notice: Notice)
      modifies this
      ensures loaded <==> isAuthenticated
      ensures nav == (if isAuthenticated then Stay else ToLogin)
      ensures !loaded ==> queues == old(queues) && loading == old(loading) && notice == Silent
      ensures loaded ==> !loading && notice == (if data.Ok? then Silent else Error(LoadFailed))
      ensures loaded && data.Ok? ==> queues == data.value
      ensures loaded && data.Err? ==> queues == old(queues)
      ensures showNewQueueInput == old(showNewQueueInput) && newQueueName == old(newQueueName)
    {
      if !isAuthenticated {
        nav, loaded, notice := ToLogin, false, Silent;
        return;
      }
      nav, loaded := Stay, true;
      notice := LoadQueues(data);
    }

    /** The "Nouvelle file" / "Annuler" button. */
    method ToggleNewQueueInput()
      modifies this
      ensures showNewQueueInput == !old(showNewQueueInput)
      ensures queues == old(queues) && loading == old(loading) && newQueueName == old(newQueueName)
    {
      showNewQueueInput := !showNewQueueInput;
    }

    /**
     * `handleCreateQueue()`: a name that is blank once trimmed sends
     * nothing; otherwise the name is sent untrimmed.  Success notifies,
     * clears the name, hides the input and reloads the list with `reload`;
     * failure keeps the form and reports the upgrade hint or the generic
     * error.
     */
    method HandleCreateQueue(result: Outcome<QueueInfo>, reload: Outcome<seq<QueueWithStats>>)
      returns (request: Option<string>, notices: seq<Notice>)
      modifies this
      ensures request.Some? <==> !Blank(old(newQueueName))
      ensures request.Some? ==> request.value == old(newQueueName)
      ensures request.None? ==>
        notices == [] && queues == old(queues) && loading == old(loading) &&
        showNewQueueInput == old(showNewQueueInput) && newQueueName == old(newQueueName)
      ensures request.Some? && result.Ok? ==>
        newQueueName == "" && !showNewQueueInput && !loading &&
        (reload.Ok? ==> queues == reload.value && notices == [Success(QueueCreated)]) &&
        (reload.Err? ==> queues == old(queues) && notices == [Success(QueueCreated), Error(LoadFailed)])
      ensures request.Some? && result.Err? ==>
        notices == [Error(CreateFailureMessage(result.failure))] &&
        queues == old(queues) && loading == old(loading) &&
        showNewQueueInput == old(showNewQueueInput) && newQueueName == old(newQueueName)
    {
      if Trim(newQueueName) == "" {
        request, notices := None, [];
        return;
      }
      request := Some(newQueueName);
      match result {
        case Ok(_) =>
          notices := [Success(QueueCreated)];
          newQueueName := "";
          showNewQueueInput := false;
          var loadNotice := LoadQueues(reload);
          if loadNotice != Silent {
            notices := notices + [loadNotice];
          }
        case Err(f) =>
          notices := [Error(if f.upgrade then UpgradeNeeded else CreateFailed)];
      }
    }
  }

  /**
   * With the client's rejection as written, a failed creation never shows
   * the upgrade hint, whatever the backend's error body says.
   */
  lemma UpgradeHintUnreachableAsWritten(body: Option<ApiClient.ErrorBody>)
    ensures CreateFailureMessage(ApiClient.RejectionAsWritten(body)) == CreateFailed
  {
  }

  /** The hint is shown exactly for an error body that asks for an upgrade, once the flag is carried over. */
  lemma UpgradeHintWithRejection(body: Option<ApiClient.ErrorBody>)
    ensures CreateFailureMessage(ApiClient.Rejection(body)) == UpgradeNeeded <==> body.Some? && body.value.upgrade
  {
  }

  /** A concrete body: the backend refuses a further queue and asks for an upgrade. */
  lemma UpgradeBodyExample()
    ensures var body := Some(ApiClient.ErrorBody(Some("Limite atteinte"), true));
      CreateFailureMessage(ApiClient.RejectionAsWritten(body)) == CreateFailed &&
      CreateFailureMessage(ApiClient.Rejection(body)) == UpgradeNeeded
  {
  }
}
