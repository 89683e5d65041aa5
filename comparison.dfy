/** Sending one message to several backends and collecting a reply per requested model. */
module Comparison {
  import opened Common
  import Backend

  /** The text recorded for a model whose backend call failed at the HTTP level. */
  const ErrorSentinel := "Error fetching response"

  /** The outbound calls: `answer(i, url, prompt)` is what the call made for the i-th requested model returns. */
  type Answers = (nat, string, string) -> Backend.BackendResult

  /** The answer received for the i-th requested model, whose prompt is the raw message. */
  function AnswerAt(message: string, models: seq<string>, answer: Answers, i: nat): Backend.BackendResult
    requires i < |models|
  {
    answer(i, Backend.ResolveUrl(models[i]), message)
  }

  /** The responses collected over the requested models in order: each call's reply text, or the
      sentinel after an HTTP failure, a later duplicate name overwriting an earlier entry; any other
      failure aborts the whole request. */
  function Compare(message: string, models: seq<string>, answer: Answers): Result<map<string, string>, Error>
    decreases |models|
  {
    if models == [] then Ok(map[])
    else
      var n := |models| - 1;
      match Compare(message, models[..n], answer)
      case Err(e) => Err(e)
      case Ok(responses) =>
        match AnswerAt(message, models, answer, n)
        case Replied(response) => Ok(responses[models[n] := Backend.ReplyText(response)])
        case HttpFailure => Ok(responses[models[n] := ErrorSentinel])
        case OtherFailure => Err(Unexpected)
  }

  /** The comparison succeeds exactly when no call ended in a non-HTTP failure; HTTP failures never stop it. */
  lemma {:induction false} CompareOkIff(message: string, models: seq<string>, answer: Answers)
    ensures Compare(message, models, answer).Ok?
        <==> forall i :: 0 <= i < |models| ==> !AnswerAt(message, models, answer, i).OtherFailure?
  {
    if models != [] {
      var n := |models| - 1;
      var p := models[..n];
      CompareOkIff(message, p, answer);
      forall i | 0 <= i < n ensures AnswerAt(message, p, answer, i) == AnswerAt(message, models, answer, i) {
        assert p[i] == models[i];
      }
    }
  }

  /** A successful comparison has exactly the requested model names as keys. */
  lemma {:induction false} CompareKeys(message: string, models: seq<string>, answer: Answers)
    requires Compare(message, models, answer).Ok?
    ensures Compare(message, models, answer).value.Keys == set m | m in models
  {
    if models != [] {
      var n := |models| - 1;
      var p := models[..n];
      CompareKeys(message, p, answer);
      assert models == p + [models[n]];
      assert (set m | m in models) == (set m | m in p) + {models[n]};
    }
  }

  /** Each model's entry is decided by the call for its last occurrence in the request: the reply text
      ("" when the "response" field is absent) or the sentinel after an HTTP failure. */
  lemma {:induction false} CompareEntry(message: string, models: seq<string>, answer: Answers, i: nat)
    requires Compare(message, models, answer).Ok?
    requires i < |models|
    requires forall j :: i < j < |models| ==> models[j] != models[i]
    ensures models[i] in Compare(message, models, answer).value
    ensures AnswerAt(message, models, answer, i).Replied? ==>
      Compare(message, models, answer).value[models[i]]
        == Backend.ReplyText(AnswerAt(message, models, answer, i).response)
    ensures AnswerAt(message, models, answer, i).HttpFailure? ==>
      Compare(message, models, answer).value[models[i]] == ErrorSentinel
  {
    var n := |models| - 1;
    var p := models[..n];
    if i < n {
      CompareEntry(message, p, answer, i);
      assert p[i] == models[i];
    }
  }

  /** Two requested models where the first backend fails at the HTTP level and the second replies:
      both appear, the first with the sentinel and the second with its reply text. */
  lemma ComparePartialFailure(message: string, a: string, b: string, answer: Answers)
    requires a != b
    requires answer(0, Backend.ResolveUrl(a), message).HttpFailure?
    requires answer(1, Backend.ResolveUrl(b), message).Replied?
    ensures Compare(message, [a, b], answer)
         == Ok(map[a := ErrorSentinel, b := Backend.ReplyText(answer(1, Backend.ResolveUrl(b), message).response)])
  {
    assert [a, b][..1] == [a];
    assert [a][..0] == [];
    assert AnswerAt(message, [a], answer, 0).HttpFailure?;
    assert Compare(message, [a], answer) == Ok(map[a := ErrorSentinel]);
    assert AnswerAt(message, [a, b], answer, 1) == answer(1, Backend.ResolveUrl(b), message);
  }

  /** The comparison loop: one backend call per requested model, in request order. */
  method CompareModels(message: string, models: seq<string>, answer: Answers)
    returns (r: Result<map<string, string>, Error>)
    ensures r == Compare(message, models, answer)
  {
    var responses: map<string, string> := map[];
    for i := 0 to |models|
      invariant Compare(message, models[..i], answer) == Ok(responses)
    {
      var model := models[i];
      assert models[..i + 1][..i] == models[..i];
      assert AnswerAt(message, models[..i + 1], answer, i) == answer(i, Backend.ResolveUrl(model), message);
      match answer(i, Backend.ResolveUrl(model), message)
      case Replied(response) =>
        responses := responses[model := Backend.ReplyText(response)];
      case HttpFailure =>
        responses := responses[model := ErrorSentinel];
      case OtherFailure =>
        CompareAbortSticks(message, models, answer, i + 1);
        return Err(Unexpected);
    }
    assert models[..|models|] == models;
    r := Ok(responses);
  }

  /** Once a prefix of the request has aborted, the whole request has. */
  lemma {:induction false} CompareAbortSticks(message: string, models: seq<string>, answer: Answers, k: nat)
    requires k <= |models|
    requires Compare(message, models[..k], answer).Err?
    ensures Compare(message, models, answer) == Err(Unexpected)
  {
    if k < |models| {
      var n := |models| - 1;
      assert models[..n][..k] == models[..k];
      CompareAbortSticks(message, models[..n], answer, k);
    } else {
      assert models[..k] == models;
      CompareErrIsUnexpected(message, models, answer);
    }
  }

  /** The only error a comparison ends with is Unexpected. */
  lemma {:induction false} CompareErrIsUnexpected(message: string, models: seq<string>, answer: Answers)
    ensures Compare(message, models, answer).Err? ==> Compare(message, models, answer).error == Unexpected
  {
    if models != [] {
      CompareErrIsUnexpected(message, models[..|models| - 1], answer);
    }
  }
}
