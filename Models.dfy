/** getModel: resolving a device-model name against the model enumeration. */
module Models {
  import opened Wrappers
  import opened Php
  import opened Errors

  /** Model::from: the position of the first enumeration case whose value is `name`. */
  function Find(cases: seq<string>, name: string): (r: Option<nat>)
    ensures r.None? <==> name !in cases
    ensures r.Some? ==> r.value < |cases| && cases[r.value] == name && name !in cases[..r.value]
  {
    if cases == [] then None
    else if cases[0] == name then Some(0)
    else
      match Find(cases[1..], name)
      case None => None
      case Some(i) =>
        assert cases[..i + 1] == [cases[0]] + cases[1..][..i];
        Some(i + 1)
  }

  /** getModel: the case named `name`, or InvalidModel naming the input and every case value. */
  function GetModel(cases: seq<string>, name: string): (r: Result<string, Failure>)
    ensures r.Success? <==> name in cases
    ensures r.Success? ==> r.value == name
    ensures r.Failure? ==> r.error == InvalidModel(name, cases)
  {
    match Find(cases, name)
    case Some(i) => Success(cases[i])
    case None => Failure(InvalidModel(name, cases))
  }

  /** The model named by a --model option, looked up only when the option is truthy. */
  function ResolveModel(cases: seq<string>, model: Option<string>): (r: Result<Option<string>, Failure>)
    ensures r.Success? ==> r.value == (if Truthy(model) then Some(model.value) else None)
    ensures r.Failure? <==> Truthy(model) && model.value !in cases
    ensures r.Failure? ==> r.error == InvalidModel(model.value, cases)
  {
    if Truthy(model) then
      match GetModel(cases, model.value)
      case Success(m) => Success(Some(m))
      case Failure(e) => Failure(e)
    else Success(None)
  }

  ghost predicate OccursAt(text: string, part: string, k: int) {
    0 <= k <= |text| - |part| && text[k..k + |part|] == part
  }

  ghost predicate Contains(text: string, part: string) {
    exists k :: OccursAt(text, part, k)
  }

  /** The text of the InvalidModel message before the list of case values. */
  function MessageHead(name: string): string {
    "Invalid model name: " + name + ". Available models: "
  }

  /** After any head, the joined list shows each piece at the head's length plus its offset. */
  lemma ListedAfter(head: string, glue: string, cases: seq<string>, i: nat)
    requires i < |cases|
    ensures var text := head + Implode(glue, cases);
      var at := |head| + Offset(glue, cases, i);
      at + |cases[i]| <= |text| && text[at..at + |cases[i]|] == cases[i]
  {
    var list := Implode(glue, cases);
    var text := head + list;
    var k := Offset(glue, cases, i);
    var at := |head| + k;
    var n := |cases[i]|;
    ImplodeAt(glue, cases, i);
    forall j | 0 <= j < n ensures text[at..at + n][j] == cases[i][j] {
      assert text[at + j] == list[k + j];
      assert list[k..k + n][j] == list[k + j];
    }
  }

  /** The i-th case value sits in the message right after the head, at its offset in the list. */
  lemma MessageListsCase(name: string, cases: seq<string>, i: nat)
    requires i < |cases|
    ensures var msg := Message(InvalidModel(name, cases));
      var at := |MessageHead(name)| + Offset(", ", cases, i);
      at + |cases[i]| <= |msg| && msg[at..at + |cases[i]|] == cases[i]
  {
    assert Message(InvalidModel(name, cases)) == MessageHead(name) + Implode(", ", cases);
    ListedAfter(MessageHead(name), ", ", cases, i);
  }

  /**
   * The invalid-model message names the rejected input and lists every case
   * value, in declaration order, separated by ", ".
   */
  lemma InvalidModelMessageListsAll(name: string, cases: seq<string>)
    ensures var msg := Message(InvalidModel(name, cases));
      && Contains(msg, name)
      && (forall i :: 0 <= i < |cases| ==>
            var at := |MessageHead(name)| + Offset(", ", cases, i);
            at + |cases[i]| <= |msg| && msg[at..at + |cases[i]|] == cases[i])
      && (forall i :: 0 <= i < |cases| ==> Contains(msg, cases[i]))
  {
    var msg := Message(InvalidModel(name, cases));
    assert msg == MessageHead(name) + Implode(", ", cases);
    assert msg[20..20 + |name|] == name;
    assert OccursAt(msg, name, 20);
    forall i | 0 <= i < |cases|
      ensures var at := |MessageHead(name)| + Offset(", ", cases, i);
              at + |cases[i]| <= |msg| && msg[at..at + |cases[i]|] == cases[i]
    {
      MessageListsCase(name, cases, i);
    }
    forall i | 0 <= i < |cases| ensures Contains(msg, cases[i]) {
      MessageListsCase(name, cases, i);
      assert OccursAt(msg, cases[i], |MessageHead(name)| + Offset(", ", cases, i));
    }
  }
}
