/**
 * Workforce utilities (utils/camel/societies/workforce/utils.py): the guard
 * that lets an operation run only in the expected running state, and the
 * strict schemas of the workers' critique rounds (validation of a JSON value
 * into a record, and dumping the record back).
 */
module Workforce {
  import opened Wrappers

  // ---------------------------------------------------------------------
  // The running-state guard
  // ---------------------------------------------------------------------

  /** A workforce as the guard sees it: its running flag and everything else. */
  datatype Workforce<S> = Workforce(running: bool, rest: S)

  /** A named operation on a workforce; `call` takes the workforce and the arguments. */
  datatype Operation<!S, !A, R> = Operation(name: string, call: (Workforce<S>, A) -> R)

  datatype GuardError = RuntimeError(message: string)

  /** The state the workforce is reported in when it is not the required one. */
  function Status(required: bool): (s: string)
    ensures required ==> s == "not running"
    ensures !required ==> s == "running"
  {
    if required then "not running" else "running"
  }

  /** The guard's error message; it names the refused operation. */
  function GuardMessage(required: bool, name: string): (r: string)
    ensures |name| < |r| && r[|r| - 1 - |name|..|r| - 1] == name && r[|r| - 1] == '.'
  {
    var head := "The workforce is " + Status(required) + ". Cannot perform the operation ";
    assert (head + name + ".")[|head|..|head| + |name|] == name;
    head + name + "."
  }

  /**
   * `check_if_running(required)(op)`: the wrapper keeps the operation's name
   * and refuses to call it unless the workforce's flag equals `required`.
   */
  function CheckIfRunning<S, A, R>(required: bool, op: Operation<S, A, R>): (w: Operation<S, A, Result<R, GuardError>>)
    ensures w.name == op.name
  {
    Operation(op.name, (self: Workforce<S>, args: A) =>
      if self.running != required then Err(RuntimeError(GuardMessage(required, op.name)))
      else Ok(op.call(self, args)))
  }

  /** In the expected state the wrapper returns the operation's own result. */
  lemma GuardPassesThrough<S, A, R>(required: bool, op: Operation<S, A, R>, self: Workforce<S>, args: A)
    requires self.running == required
    ensures CheckIfRunning(required, op).call(self, args) == Ok(op.call(self, args))
  {
  }

  /**
   * In the other state the wrapper fails with the message, and its result is
   * the same whatever the operation does: the operation is never invoked.
   */
  lemma GuardRefuses<S, A, R>(required: bool, op: Operation<S, A, R>, other: Operation<S, A, R>, self: Workforce<S>, args: A)
    requires self.running != required
    requires other.name == op.name
    ensures CheckIfRunning(required, op).call(self, args) == Err(RuntimeError(GuardMessage(required, op.name)))
    ensures CheckIfRunning(required, op).call(self, args) == CheckIfRunning(required, other).call(self, args)
  {
  }

  /** The message ends with the operation's name, whatever the name is. */
  lemma MessageNamesOperation(required: bool, name: string)
    ensures var m := GuardMessage(required, name);
      |m| > |name| && m[|m| - |name| - 1..] == name + "."
  {
    var m := GuardMessage(required, name);
    var head := "The workforce is " + Status(required) + ". Cannot perform the operation ";
    assert m == head + (name + ".");
  }

  // ---------------------------------------------------------------------
  // Critique schemas
  // ---------------------------------------------------------------------

  /** JSON values as the validators receive them. */
  datatype Json =
    | JNull
    | JBool(b: bool)
    | JNumber(n: int)
    | JString(s: string)
    | JArray(items: seq<Json>)
    | JObject(fields: map<string, Json>)

  /** `WorkerCritiqueItem`. */
  datatype CritiqueItem = CritiqueItem(target: string, issue: string)

  /** `WorkerFallbackOpinionRound2`: at least one critique. */
  datatype Round2 = Round2(critiques: seq<CritiqueItem>)

  /** `WorkerFallbackOpinionRound3`. */
  datatype Round3 = Round3(finalOpinion: string)

  /** Exactly the fields `keys`, no more and no fewer, all of them strings. */
  predicate StringFieldsExactly(j: Json, keys: set<string>) {
    && j.JObject?
    && j.fields.Keys == keys
    && forall k :: k in keys ==> j.fields[k].JString?
  }

  /** Validating a critique item: an object with exactly `target` and `issue`, both strings. */
  function ParseCritiqueItem(j: Json): (r: Option<CritiqueItem>)
    ensures r.Some? <==> StringFieldsExactly(j, {"target", "issue"})
    ensures r.Some? ==> r.value.target == j.fields["target"].s && r.value.issue == j.fields["issue"].s
  {
    if StringFieldsExactly(j, {"target", "issue"}) then
      Some(CritiqueItem(j.fields["target"].s, j.fields["issue"].s))
    else None
  }

  /** Validating a list of critique items: every item must validate. */
  function ParseItems(items: seq<Json>): (r: Option<seq<CritiqueItem>>)
    ensures r.Some? <==> forall i :: 0 <= i < |items| ==> ParseCritiqueItem(items[i]).Some?
    ensures r.Some? ==>
      && |r.value| == |items|
      && forall i :: 0 <= i < |items| ==> ParseCritiqueItem(items[i]) == Some(r.value[i])
  {
    if items == [] then Some([])
    else
      var head := ParseCritiqueItem(items[0]);
      var tail := ParseItems(items[1..]);
      assert forall i :: 1 <= i < |items| ==> items[i] == items[1..][i - 1];
      if head.Some? && tail.Some? then Some([head.value] + tail.value) else None
  }

  /** Validating round two: exactly the field `critiques`, a non-empty list of valid items. */
  function ParseRound2(j: Json): (r: Option<Round2>)
    ensures r.Some? <==>
      && j.JObject? && j.fields.Keys == {"critiques"}
      && j.fields["critiques"].JArray? && |j.fields["critiques"].items| >= 1
      && ParseItems(j.fields["critiques"].items).Some?
    ensures r.Some? ==> |r.value.critiques| >= 1
  {
    if j.JObject? && j.fields.Keys == {"critiques"} && j.fields["critiques"].JArray?
       && |j.fields["critiques"].items| >= 1 then
      match ParseItems(j.fields["critiques"].items)
      case Some(cs) => Some(Round2(cs))
      case None => None
    else None
  }

  /** Validating round three: exactly the string field `final_opinion`. */
  function ParseRound3(j: Json): (r: Option<Round3>)
    ensures r.Some? <==> StringFieldsExactly(j, {"final_opinion"})
    ensures r.Some? ==> r.value.finalOpinion == j.fields["final_opinion"].s
  {
    if StringFieldsExactly(j, {"final_opinion"}) then Some(Round3(j.fields["final_opinion"].s)) else None
  }

  /** Dumping the records back to JSON. */
  function ItemJson(c: CritiqueItem): Json {
    JObject(map["target" := JString(c.target), "issue" := JString(c.issue)])
  }

  function ItemsJson(cs: seq<CritiqueItem>): (js: seq<Json>)
    ensures |js| == |cs| && forall i :: 0 <= i < |cs| ==> js[i] == ItemJson(cs[i])
  {
    if cs == [] then [] else [ItemJson(cs[0])] + ItemsJson(cs[1..])
  }

  function Round2Json(r: Round2): Json {
    JObject(map["critiques" := JArray(ItemsJson(r.critiques))])
  }

  function Round3Json(r: Round3): Json {
    JObject(map["final_opinion" := JString(r.finalOpinion)])
  }

  /** A critique item validates from its dump, and only its dump validates to it. */
  lemma ItemRoundTrip(c: CritiqueItem, j: Json)
    ensures ParseCritiqueItem(ItemJson(c)) == Some(c)
    ensures ParseCritiqueItem(j) == Some(c) ==> j == ItemJson(c)
  {
    var d := ItemJson(c);
    assert d.fields.Keys == {"target", "issue"};
    if ParseCritiqueItem(j) == Some(c) {
      assert j.fields == d.fields;
    }
  }

  /** Lists of items round-trip both ways. */
  lemma ItemsRoundTrip(cs: seq<CritiqueItem>, js: seq<Json>)
    ensures ParseItems(ItemsJson(cs)) == Some(cs)
    ensures ParseItems(js) == Some(cs) ==> js == ItemsJson(cs)
  {
    var d := ItemsJson(cs);
    forall i | 0 <= i < |cs|
      ensures ParseCritiqueItem(d[i]) == Some(cs[i])
    {
      ItemRoundTrip(cs[i], d[i]);
    }
    var p := ParseItems(d).value;
    assert forall i :: 0 <= i < |cs| ==> p[i] == cs[i];
    assert p == cs;
    if ParseItems(js) == Some(cs) {
      forall i | 0 <= i < |cs|
        ensures js[i] == d[i]
      {
        ItemRoundTrip(cs[i], js[i]);
      }
    }
  }

  /**
   * A round-two answer with at least one critique validates from its dump,
   * and a JSON value validates to it only if it is that dump: no other
   * fields, nothing missing.
   */
  lemma Round2RoundTrip(r: Round2, j: Json)
    requires |r.critiques| >= 1
    ensures ParseRound2(Round2Json(r)) == Some(r)
    ensures ParseRound2(j) == Some(r) ==> j == Round2Json(r)
  {
    var d := Round2Json(r);
    assert d.fields.Keys == {"critiques"};
    ItemsRoundTrip(r.critiques, d.fields["critiques"].items);
    if ParseRound2(j) == Some(r) {
      ItemsRoundTrip(r.critiques, j.fields["critiques"].items);
      assert j.fields == d.fields;
    }
  }

  /** An empty list of critiques never validates, whatever else the value holds. */
  lemma EmptyCritiquesRejected(fields: map<string, Json>)
    requires "critiques" in fields && fields["critiques"] == JArray([])
    ensures ParseRound2(JObject(fields)) == None
  {
  }

  /** Round three round-trips both ways. */
  lemma Round3RoundTrip(r: Round3, j: Json)
    ensures ParseRound3(Round3Json(r)) == Some(r)
    ensures ParseRound3(j) == Some(r) ==> j == Round3Json(r)
  {
    var d := Round3Json(r);
    assert d.fields.Keys == {"final_opinion"};
    if ParseRound3(j) == Some(r) {
      assert j.fields == d.fields;
    }
  }

  /** A field outside a schema makes validation fail. */
  lemma ExtraFieldRejected(fields: map<string, Json>, extra: string)
    requires extra in fields
    ensures extra !in {"target", "issue"} ==> ParseCritiqueItem(JObject(fields)).None?
    ensures extra != "critiques" ==> ParseRound2(JObject(fields)).None?
    ensures extra != "final_opinion" ==> ParseRound3(JObject(fields)).None?
  {
  }
}
