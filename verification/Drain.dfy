/** `query_answer_to_json`: an answer stream is drained eagerly, up to a cap. */
module Drain {
  import opened Prelude

  /** One poll of an answer stream. */
  datatype Poll<+T, +E> = Item(value: T) | Broken(error: E) | End

  /** A driver stream, possibly endless: what each successive poll yields. */
  type Stream<T, E> = nat -> Poll<T, E>

  datatype QueryAnswer<T, D, !E> =
    | OkAnswer
    | ConceptRows(rows: Stream<T, E>)
    | ConceptDocuments(documents: Stream<D, E>)

  datatype AnswerJson<+J> = AnswerJson(answerType: string, answers: Option<seq<J>>, truncated: bool)

  /** The first `n` polls all yield items. */
  ghost predicate Flows<T, E>(stream: Stream<T, E>, n: nat) {
    forall i: nat :: i < n ==> stream(i).Item?
  }

  /** The stream delivers exactly `n` items and then ends. */
  ghost predicate Delivers<T, E>(stream: Stream<T, E>, n: nat) {
    Flows(stream, n) && stream(n).End?
  }

  /** The JSON of the first `n` items of the stream. */
  ghost function Rendered<T, J, E>(stream: Stream<T, E>, n: nat, render: T -> J): (js: seq<J>)
    requires Flows(stream, n)
    ensures |js| == n
  {
    seq(n, i requires 0 <= i < n => render(stream(i).value))
  }

  /** What draining a stream under a cap must return: the first broken poll at or before the item past the
      cap is an error; a stream that ends within the cap comes back whole; and one that goes on past the cap
      comes back cut to its first `cap` items, and says so. */
  ghost predicate DrainedTo<T, J, E>(stream: Stream<T, E>, cap: nat, render: T -> J, r: Result<(seq<J>, bool), E>) {
    exists n: nat :: n <= cap && Flows(stream, n) &&
      match r
      case Err(e) => stream(n) == Broken(e)
      case Ok((js, truncated)) =>
        && js == Rendered(stream, n, render)
        && if truncated then n == cap && stream(n).Item? else stream(n).End?
  }

  method DrainCapped<T, J, E>(stream: Stream<T, E>, cap: nat, render: T -> J)
    returns (r: Result<(seq<J>, bool), E>)
    ensures DrainedTo(stream, cap, render, r)
  {
    var out := [];
    var truncated := false;
    var polls := 0;
    while true
      invariant polls == |out| <= cap
      invariant Flows(stream, polls) && out == Rendered(stream, polls, render)
      decreases cap - polls
    {
      match stream(polls) {
        case End => return Ok((out, false));
        case Broken(e) => return Err(e);
        case Item(v) =>
          if |out| >= cap {
            return Ok((out, true));
          }
          out := out + [render(v)];
          polls := polls + 1;
      }
    }
  }

  /** What an answer must come back as, whichever of its three forms it has. */
  ghost predicate Materialized<T, D, J, E>(answer: QueryAnswer<T, D, E>, cap: nat, rowToJson: T -> J,
                                           documentToJson: D -> J, r: Result<AnswerJson<J>, E>) {
    match answer
    case OkAnswer => r == Ok(AnswerJson("ok", None, false))
    case ConceptRows(rows) => DrainedTo(rows, cap, rowToJson, Unwrap(r)) && AnswersAs(r, "conceptRows")
    case ConceptDocuments(docs) => DrainedTo(docs, cap, documentToJson, Unwrap(r)) && AnswersAs(r, "conceptDocuments")
  }

  ghost predicate AnswersAs<J, E>(r: Result<AnswerJson<J>, E>, answerType: string) {
    r.Ok? ==> r.value.answerType == answerType && r.value.answers.Some?
  }

  /** Both streaming forms of an answer are drained under the same cap. */
  method QueryAnswerToJson<T, D, J, E>(answer: QueryAnswer<T, D, E>, maxAnswers: nat, rowToJson: T -> J,
                                       documentToJson: D -> J)
    returns (r: Result<AnswerJson<J>, E>)
    ensures Materialized(answer, maxAnswers, rowToJson, documentToJson, r)
  {
    match answer {
      case OkAnswer =>
        return Ok(AnswerJson("ok", None, false));
      case ConceptRows(stream) =>
        var drained := DrainCapped(stream, maxAnswers, rowToJson);
        match drained {
          case Err(e) => return Err(e);
          case Ok((rows, truncated)) => return Ok(AnswerJson("conceptRows", Some(rows), truncated));
        }
      case ConceptDocuments(stream) =>
        var drained := DrainCapped(stream, maxAnswers, documentToJson);
        match drained {
          case Err(e) => return Err(e);
          case Ok((docs, truncated)) => return Ok(AnswerJson("conceptDocuments", Some(docs), truncated));
        }
    }
  }

  ghost function Unwrap<J, E>(r: Result<AnswerJson<J>, E>): Result<(seq<J>, bool), E> {
    match r
    case Err(e) => Err(e)
    case Ok(a) => Ok((if a.answers.Some? then a.answers.value else [], a.truncated))
  }

  // ---- consequences ------------------------------------------------------------------

  lemma StopsHereOnly<T, E>(stream: Stream<T, E>, m: nat, n: nat)
    requires Flows(stream, m) && Flows(stream, n) && !stream(m).Item?
    ensures n <= m
  {
  }

  /** The outcome of a drain is determined by the stream and the cap. */
  lemma DrainUnique<T, J, E>(stream: Stream<T, E>, cap: nat, render: T -> J, r: Result<(seq<J>, bool), E>,
                             s: Result<(seq<J>, bool), E>)
    requires DrainedTo(stream, cap, render, r) && DrainedTo(stream, cap, render, s)
    ensures r == s
  {
    var m: nat, n: nat := DrainPoint(stream, cap, render, r), DrainPoint(stream, cap, render, s);
    if m < n { StopsHereOnly(stream, m, n); }
    if n < m { StopsHereOnly(stream, n, m); }
  }

  ghost function DrainPoint<T, J, E>(stream: Stream<T, E>, cap: nat, render: T -> J, r: Result<(seq<J>, bool), E>)
    : (n: nat)
    requires DrainedTo(stream, cap, render, r)
    ensures n <= cap && Flows(stream, n)
    ensures r.Err? ==> stream(n) == Broken(r.error)
    ensures r.Ok? ==> r.value.0 == Rendered(stream, n, render)
    ensures r.Ok? ==> if r.value.1 then n == cap && stream(n).Item? else stream(n).End?
  {
    var n: nat :| n <= cap && Flows(stream, n) &&
      match r
      case Err(e) => stream(n) == Broken(e)
      case Ok((js, truncated)) =>
        && js == Rendered(stream, n, render)
        && if truncated then n == cap && stream(n).Item? else stream(n).End?;
    n
  }

  /** All or nothing. Without the truncation flag the caller has the whole answer, item for item; with it
      the stream holds more than the cap, and the first `cap` items in order are what is returned. */
  lemma AllOrNothing<T, J, E>(stream: Stream<T, E>, cap: nat, render: T -> J, js: seq<J>, truncated: bool)
    requires DrainedTo(stream, cap, render, Ok((js, truncated)))
    ensures |js| <= cap
    ensures !truncated <==> Delivers(stream, |js|)
    ensures truncated <==> Flows(stream, cap + 1)
    ensures forall i: nat :: i < |js| ==> stream(i).Item? && js[i] == render(stream(i).value)
  {
    var n := DrainPoint(stream, cap, render, Ok((js, truncated)));
    assert Flows(stream, cap + 1) ==> stream(n).Item?;
  }

  /** A drain fails exactly when a poll up to the one past the cap is the first broken one. */
  lemma FailsIff<T, J, E>(stream: Stream<T, E>, cap: nat, render: T -> J, r: Result<(seq<J>, bool), E>)
    requires DrainedTo(stream, cap, render, r)
    ensures r.Err? <==> exists n: nat :: n <= cap && Flows(stream, n) && stream(n).Broken?
  {
    var m: nat := DrainPoint(stream, cap, render, r);
    assert forall n: nat :: m < n && Flows(stream, n) ==> stream(m).Item?;
  }

  /** Which of its three outcomes a drain has, told from the stream alone. */
  lemma DrainOutcome<T, J, E>(stream: Stream<T, E>, cap: nat, render: T -> J, r: Result<(seq<J>, bool), E>)
    requires DrainedTo(stream, cap, render, r)
    ensures r.Ok? && !r.value.1 <==> exists n: nat :: n <= cap && Delivers(stream, n)
    ensures r.Ok? && r.value.1 <==> Flows(stream, cap + 1)
  {
    var m: nat := DrainPoint(stream, cap, render, r);
    forall n: nat | n <= cap && Delivers(stream, n)
      ensures r.Ok? && !r.value.1
    {
      StopsHereOnly(stream, n, m);
      if !stream(m).Item? {
        StopsHereOnly(stream, m, n);
      }
    }
    assert Flows(stream, cap + 1) ==> stream(m).Item?;
    assert r.Ok? && !r.value.1 ==> Delivers(stream, m);
  }
}
