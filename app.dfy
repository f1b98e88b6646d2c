/**
 * App.tsx: the application state (`result` and `loading`), the transitions
 * `handleFortuneTell` and `handleReset` make on it, and the conditions that
 * decide which parts of the page are rendered.
 */
module App {
  import opened Wrappers
  import opened Types
  import GeminiService
  import TextFormat

  /** One step of the loading narration: its delay in milliseconds and its message. */
  datatype NarrationStep = NarrationStep(delay: nat, message: string)

  /** The first message is shown at once; the other three are set by timers. */
  const Narration: seq<NarrationStep> := [
    NarrationStep(0, "星の配置と魂の記録を読み解いています..."),
    NarrationStep(2500, "全156柱の神々から守護神を探しています..."),
    NarrationStep(5000, "統計学と易学に基づき、80種の運命パターンを照合中..."),
    NarrationStep(7500, "守護神の御姿を念写しています...（少々お待ちください）")
  ]

  /** The one alert shown when a request fails. */
  const FailureAlert: string := "申し訳ありません。神々との通信に失敗しました。もう一度お試しください。"

  const NotLoading: LoadingState := LoadingState(false, "")

  lemma NarrationDelaysIncrease()
    ensures |Narration| == 4 && Narration[0].delay == 0
    ensures forall i, j :: 0 <= i < j < |Narration| ==> Narration[i].delay < Narration[j].delay
  {
  }

  /** The parts of the page that can be rendered. */
  datatype View = HeaderVisual | InputFormView | LoadingOverlay | ResultPage

  /** Which parts are rendered for a given state. */
  function Views(result: Option<FortuneResult>, loading: LoadingState): (v: set<View>)
    ensures HeaderVisual in v <==> result.None? && !loading.isLoading
    ensures InputFormView in v <==> result.None? && !loading.isLoading
    ensures LoadingOverlay in v <==> loading.isLoading
    ensures ResultPage in v <==> result.Some?
    ensures v != {}
  {
    (if result.None? && !loading.isLoading then {HeaderVisual, InputFormView} else {})
    + (if loading.isLoading then {LoadingOverlay} else {})
    + (if result.Some? then {ResultPage} else {})
  }

  class AppState {
    var result: Option<FortuneResult>
    var loading: LoadingState
    /** The alerts raised so far, as an abstract event log. */
    var alerts: seq<string>

    function VisibleViews(): set<View>
      reads this
    {
      Views(result, loading)
    }

    constructor ()
      ensures result == None && loading == NotLoading && alerts == []
      ensures VisibleViews() == {HeaderVisual, InputFormView}
    {
      result, loading, alerts := None, NotLoading, [];
    }

    /** The synchronous start of `handleFortuneTell`, up to the `await`. */
    method Submit(input: UserInput)
      modifies this
      ensures loading == LoadingState(true, Narration[0].message)
      ensures result == old(result) && alerts == old(alerts)
      ensures old(result).None? ==> VisibleViews() == {LoadingOverlay}
    {
      loading := LoadingState(true, Narration[0].message);
    }

    /** A narration timer firing: it sets its message whatever the state is. */
    method NarrationTick(k: nat)
      requires 0 < k < |Narration|
      modifies this
      ensures loading == LoadingState(true, Narration[k].message)
      ensures result == old(result) && alerts == old(alerts)
    {
      loading := LoadingState(true, Narration[k].message);
    }

    /** The rest of `handleFortuneTell`, once the request has settled. */
    method Settle(outcome: Result<FortuneResult, GeminiService.FortuneError>)
      modifies this
      ensures outcome.Success? ==> result == Some(outcome.value) && alerts == old(alerts)
      ensures outcome.Failure? ==> result == old(result) && alerts == old(alerts) + [FailureAlert]
      ensures loading == NotLoading
      ensures outcome.Success? ==> VisibleViews() == {ResultPage}
      ensures outcome.Failure? && old(result).None? ==> VisibleViews() == {HeaderVisual, InputFormView}
    {
      if outcome.Success? {
        result := Some(outcome.value);
      } else {
        alerts := alerts + [FailureAlert];
      }
      loading := NotLoading;
    }

    /**
     * `handleFortuneTell` with no timer firing before the request settles;
     * the request is `generateFortune` on the given configuration and replies.
     */
    method HandleFortuneTell(input: UserInput, apiKey: string,
                             textReply: GeminiService.TextReply, imageReply: GeminiService.ImageReply)
      modifies this
      ensures loading == NotLoading
      ensures GeminiService.RequestSucceeds(apiKey, textReply) ==>
        var d := textReply.decoded.value;
        && result.Some? && alerts == old(alerts)
        && GeminiService.KeepsOtherFields(result.value, d)
        && result.value.deityImage == GeminiService.ExpectedImage(d, imageReply)
        && result.value.essence == TextFormat.FormatText(d.essence)
        && result.value.love == TextFormat.FormatText(d.love)
        && result.value.work == TextFormat.FormatText(d.work)
        && result.value.destiny == TextFormat.FormatText(d.destiny)
        && VisibleViews() == {ResultPage}
      ensures !GeminiService.RequestSucceeds(apiKey, textReply) ==>
        result == old(result) && alerts == old(alerts) + [FailureAlert]
    {
      Submit(input);
      var outcome, _ := GeminiService.GenerateFortune(input, apiKey, textReply, imageReply);
      Settle(outcome);
    }

    /** `handleReset`: the result is dropped, the loading state is left alone. */
    method HandleReset()
      modifies this
      ensures result == None
      ensures loading == old(loading) && alerts == old(alerts)
      ensures !loading.isLoading ==> VisibleViews() == {HeaderVisual, InputFormView}
    {
      result := None;
    }
  }

  /**
   * A narration timer outlives a request that fails quickly: after the
   * failure alert the loading overlay comes back, with no request pending
   * that could turn it off again.
   */
  method LateNarrationAfterFailure(input: UserInput) returns (app: AppState)
    ensures app.alerts == [FailureAlert] && app.result == None
    ensures app.VisibleViews() == {LoadingOverlay}
  {
    app := new AppState();
    app.Submit(input);
    app.Settle(Failure(GeminiService.TextCallFailed));
    app.NarrationTick(1);
  }

  /**
   * A stubbed request that decodes a fortune with three timeline events and
   * returns an image reply without inline data: the result page shows that
   * fortune, with its three events and without an image.
   */
  method StubbedScenario(d: FortuneResult) returns (app: AppState)
    requires |d.timeline| == 3 && d.deityImage == None
    ensures app.result.Some? && |app.result.value.timeline| == 3
    ensures app.result.value.deityImage == None
    ensures app.VisibleViews() == {ResultPage} && app.alerts == []
  {
    app := new AppState();
    var input := UserInput("1990-05-10", "", Female, "花子");
    // The reply text and its decoded record are independent parameters of the
    // stub: only the text's non-emptiness matters here.
    app.HandleFortuneTell(input, "key", GeminiService.TextResponse("stub reply", Some(d)),
                          GeminiService.ImageResponse(Some([])));
  }
}
