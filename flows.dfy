/**
 * The parts of Kotlin's coroutine streams the model needs: throwables,
 * `kotlin.Result`, and a finished flow as its view-model collector sees it.
 */
module Flows {
  import opened Wrappers

  /** A thrown value. `isException` separates `Exception`s (I/O faults,
      HTTP errors, parse errors) from other `Throwable`s such as `Error`s. */
  datatype Throwable = Throwable(isException: bool)

  /** `kotlin.Result<T>`. */
  datatype KResult<+T> = Success(value: T) | Failure(cause: Throwable) {

    /** `Result.getOrNull()` */
    function GetOrNull(): Option<T> {
      match this
      case Success(v) => Some(v)
      case Failure(_) => None
    }
  }

  /** A finished cold flow: the values it emitted, in order, and then either
      normal completion (`failure == None`) or the throwable it ended with. */
  datatype Flow<+T> = Flow(emitted: seq<T>, failure: Option<Throwable>)

  /** A collector that clears its loading flag on every value and in its
      `.catch` has settled once the flow emitted something or failed. */
  predicate Settles<T>(f: Flow<T>) {
    f.emitted != [] || f.failure.Some?
  }

  /** The payloads of the successes among a flow's `Result` values, in order. */
  function Successes<T>(items: seq<KResult<T>>): (r: seq<T>)
    ensures |r| <= |items|
    ensures r == [] <==> forall i :: 0 <= i < |items| ==> items[i].Failure?
  {
    if items == [] then []
    else
      var init := Successes(items[..|items| - 1]);
      var last := items[|items| - 1];
      assert forall i :: 0 <= i < |items| - 1 ==> items[..|items| - 1][i] == items[i];
      match last
      case Success(v) => init + [v]
      case Failure(_) => init
  }

  /** The last payload among the successes is the value of the last
      `Success` in the flow: nothing after it is a success. */
  lemma {:induction false} LastSuccessValue<T>(items: seq<KResult<T>>, j: nat)
    requires j < |items| && items[j].Success?
    requires forall i :: j < i < |items| ==> items[i].Failure?
    ensures Successes(items) != []
    ensures Successes(items)[|Successes(items)| - 1] == items[j].value
    decreases |items|
  {
    var init := items[..|items| - 1];
    if j < |items| - 1 {
      assert forall i :: j < i < |init| ==> init[i] == items[i];
      LastSuccessValue(init, j);
      assert Successes(items) == Successes(init);
    }
  }

  /** `LastSuccessValue` for every candidate index at once. */
  lemma LastSuccessValues<T>(items: seq<KResult<T>>)
    ensures forall j :: 0 <= j < |items| && items[j].Success? && (forall i :: j < i < |items| ==> items[i].Failure?)
                        ==> Successes(items) != [] && Successes(items)[|Successes(items)| - 1] == items[j].value
  {
    forall j | 0 <= j < |items| && items[j].Success? && (forall i :: j < i < |items| ==> items[i].Failure?) {
      LastSuccessValue(items, j);
    }
  }

  /** Reading one more value adds its payload when it is a success. */
  lemma SuccessesPrefixStep<T>(items: seq<KResult<T>>, i: nat)
    requires i < |items|
    ensures Successes(items[..i + 1])
            == Successes(items[..i]) + (if items[i].Success? then [items[i].value] else [])
  {
    assert items[..i + 1][..i] == items[..i];
  }
}
