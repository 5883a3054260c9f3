/**
 * The choice of status message for one call of the download progress hook
 * (`my_hook` inside `download`). The two text clean-up helpers it applies are
 * the caller's `removeWhitespace` and `removeAnsi`.
 */
module Progress {
  import opened Wrappers

  /** The keys of a progress-hook call that the hook reads. */
  datatype HookInfo = HookInfo(status: Option<string>, percent: Option<string>, eta: Option<string>)

  const WaitingMessage: string := "Waiting on YouTube ..."

  /** The status message the hook sends for `h`, or None when it sends nothing. */
  function HookMessage(h: HookInfo, removeWhitespace: string -> string, removeAnsi: string -> string): (r: Option<string>)
    ensures r.None? <==> h.status !in {Some("waiting"), Some("paused"), Some("downloading")}
    ensures h.status in {Some("waiting"), Some("paused")} ==> r == Some(WaitingMessage)
    ensures h.status == Some("downloading") && !(Truthy(h.percent) && Truthy(h.eta)) ==> r == Some(WaitingMessage)
    ensures h.status == Some("downloading") && Truthy(h.percent) && Truthy(h.eta) ==>
      r == Some(removeAnsi("download " + removeWhitespace(h.percent.value) + " ETA " + h.eta.value))
  {
    if h.status == Some("waiting") || h.status == Some("paused") then Some(WaitingMessage)
    else if h.status == Some("downloading") then
      if !Truthy(h.percent) || !Truthy(h.eta) then Some(WaitingMessage)
      else Some(removeAnsi("download " + removeWhitespace(h.percent.value) + " ETA " + h.eta.value))
    else None
  }

  /** The messages a sequence of hook calls sends, in call order. */
  function HookMessages(hooks: seq<HookInfo>, removeWhitespace: string -> string, removeAnsi: string -> string): (r: seq<string>)
    ensures |r| <= |hooks|
    ensures r == [] <==> forall i :: 0 <= i < |hooks| ==> HookMessage(hooks[i], removeWhitespace, removeAnsi).None?
    decreases |hooks|
  {
    if |hooks| == 0 then []
    else
      var rest := HookMessages(hooks[1..], removeWhitespace, removeAnsi);
      assert forall i :: 1 <= i < |hooks| ==> hooks[i] == hooks[1..][i - 1];
      match HookMessage(hooks[0], removeWhitespace, removeAnsi)
      case Some(m) => [m] + rest
      case None => rest
  }

  /** Every message sent is the message of some hook call. */
  lemma {:induction false} HookMessagesComeFromHooks(hooks: seq<HookInfo>, removeWhitespace: string -> string,
                                                     removeAnsi: string -> string)
    ensures forall m :: m in HookMessages(hooks, removeWhitespace, removeAnsi) ==>
      exists i :: 0 <= i < |hooks| && HookMessage(hooks[i], removeWhitespace, removeAnsi) == Some(m)
    decreases |hooks|
  {
    if |hooks| > 0 {
      HookMessagesComeFromHooks(hooks[1..], removeWhitespace, removeAnsi);
      forall m | m in HookMessages(hooks, removeWhitespace, removeAnsi)
        ensures exists i :: 0 <= i < |hooks| && HookMessage(hooks[i], removeWhitespace, removeAnsi) == Some(m)
      {
        if HookMessage(hooks[0], removeWhitespace, removeAnsi) != Some(m) {
          var j :| 0 <= j < |hooks[1..]| && HookMessage(hooks[1..][j], removeWhitespace, removeAnsi) == Some(m);
          assert hooks[1..][j] == hooks[j + 1];
        }
      }
    }
  }

  /** A single hook call sends its message, if it has one. */
  lemma HookMessagesOfOneCall(h: HookInfo, removeWhitespace: string -> string, removeAnsi: string -> string)
    ensures HookMessages([h], removeWhitespace, removeAnsi) ==
      match HookMessage(h, removeWhitespace, removeAnsi)
      case Some(m) => [m]
      case None => []
  {
    assert [h][1..] == [];
  }

  /** The messages of consecutive hook calls are sent in call order: those of `a`, then those of `b`. */
  lemma {:induction false} HookMessagesAppend(a: seq<HookInfo>, b: seq<HookInfo>,
                                              removeWhitespace: string -> string, removeAnsi: string -> string)
    ensures HookMessages(a + b, removeWhitespace, removeAnsi) ==
      HookMessages(a, removeWhitespace, removeAnsi) + HookMessages(b, removeWhitespace, removeAnsi)
    decreases |a|
  {
    if |a| == 0 {
      assert a + b == b;
    } else {
      assert (a + b)[0] == a[0];
      assert (a + b)[1..] == a[1..] + b;
      HookMessagesAppend(a[1..], b, removeWhitespace, removeAnsi);
    }
  }
}
