/**
 * The five rule dispatchers the ProxyServer facade installs on the request
 * handler (`allRulesOnRequest`, `allRulesOnResponse`,
 * `allRulesOnForceHTTPSBeforeRequest`, `allRuleOnError`,
 * `allRulesOnConnectError`): each walks a name -> rule object in key order
 * and returns the first truthy rule result.
 *
 * Rules are user functions; they are modelled as total functions of their
 * arguments (a rule that throws is not modelled).
 */
module RuleDispatch {
  import opened JsValues
  import opened JsObjects

  /** The parts of an intercepted exchange a rule is given. */
  datatype Request = Request(protocol: string, url: string, host: string, verb: string)
  datatype Response = Response(statusCode: int, body: string)
  datatype ErrorInfo = ErrorInfo(message: string)

  type RequestRule = Request -> Value
  type ResponseRule = ((Request, Response)) -> Value
  type ErrorRule = ((Request, ErrorInfo)) -> Value

  /** The first-truthy-wins fold shared by the dispatchers: the result of the
      first rule whose result is truthy, or `fallback` when none is. */
  function FirstTruthy<A>(rules: Entries<A -> Value>, arg: A, fallback: Value): (r: Value)
    ensures
      || (exists i :: 0 <= i < |rules| && r == rules[i].1(arg) && Truthy(r)
            && forall j :: 0 <= j < i ==> !Truthy(rules[j].1(arg)))
      || (r == fallback && forall i :: 0 <= i < |rules| ==> !Truthy(rules[i].1(arg)))
  {
    if rules == [] then fallback
    else if Truthy(rules[0].1(arg)) then rules[0].1(arg)
    else
      var r := FirstTruthy(rules[1..], arg, fallback);
      assert forall i :: 1 <= i < |rules| ==> rules[i] == rules[1..][i - 1];
      r
  }

  /** `beforeSendRequest`: `null` when no rule answers. */
  function OnRequest(req: Request, rules: Entries<RequestRule>): (r: Value)
    ensures r == Null || Truthy(r)
    ensures (forall i :: 0 <= i < |rules| ==> !Truthy(rules[i].1(req))) <==> r == Null
  {
    FirstTruthy(rules, req, Null)
  }

  /** `beforeSendResponse`: `null` when no rule answers. */
  function OnResponse(req: Request, res: Response, rules: Entries<ResponseRule>): (r: Value)
    ensures r == Null || Truthy(r)
    ensures (forall i :: 0 <= i < |rules| ==> !Truthy(rules[i].1((req, res)))) <==> r == Null
  {
    FirstTruthy(rules, (req, res), Null)
  }

  /** `beforeDealHttpsRequest`: when no rule answers, the incoming `state` is
      returned unchanged rather than `null`. */
  function OnForceHttps(req: Request, rules: Entries<RequestRule>, state: Value): (r: Value)
    ensures (forall i :: 0 <= i < |rules| ==> !Truthy(rules[i].1(req))) ==> r == state
    ensures r != state ==> Truthy(r)
  {
    FirstTruthy(rules, req, state)
  }

  /** `onError`: `null` when no rule answers. */
  function OnError(req: Request, error: ErrorInfo, rules: Entries<ErrorRule>): (r: Value)
    ensures r == Null || Truthy(r)
    ensures (forall i :: 0 <= i < |rules| ==> !Truthy(rules[i].1((req, error)))) <==> r == Null
  {
    FirstTruthy(rules, (req, error), Null)
  }

  /** `onConnectError`. Its loop assigns the undeclared `ruleResult` under
      'use strict': the first rule is called, then the assignment throws a
      ReferenceError. Only an empty rule object returns (`null`). */
  function OnConnectError(req: Request, error: ErrorInfo, rules: Entries<ErrorRule>): (r: Completion<Value>)
    ensures r.Normal? <==> rules == []
    ensures r.Normal? ==> r.value == Null
    ensures r.Throw? ==> r.error == ReferenceError
  {
    if rules == [] then Normal(Null) else Throw(ReferenceError)
  }

  /** `onConnectError` as evidently intended, with `ruleResult` declared
      like in the other four dispatchers: the first truthy answer, or `null`. */
  function OnConnectErrorIntended(req: Request, error: ErrorInfo, rules: Entries<ErrorRule>): (r: Value)
    ensures r == Null || Truthy(r)
    ensures (forall i :: 0 <= i < |rules| ==> !Truthy(rules[i].1((req, error)))) <==> r == Null
  {
    FirstTruthy(rules, (req, error), Null)
  }

  /** The written dispatcher loses every answer: with a single rule that
      answers, the intended dispatcher returns that answer while the written
      one throws. */
  lemma ConnectErrorAnswerLost(req: Request, error: ErrorInfo, name: string, rule: ErrorRule)
    requires Truthy(rule((req, error)))
    ensures OnConnectError(req, error, [(name, rule)]) == Throw(ReferenceError)
    ensures OnConnectErrorIntended(req, error, [(name, rule)]) == rule((req, error))
  {
  }

  /** Rules run in key order: evaluating a list followed by more rules is
      evaluating the list with the later rules' answer as its fallback. */
  lemma {:induction false} FirstTruthyAppend<A>(rules: Entries<A -> Value>, more: Entries<A -> Value>, arg: A, fallback: Value)
    ensures FirstTruthy(rules + more, arg, fallback) == FirstTruthy(rules, arg, FirstTruthy(more, arg, fallback))
  {
    if rules != [] {
      assert (rules + more)[1..] == rules[1..] + more;
      FirstTruthyAppend(rules[1..], more, arg, fallback);
    } else {
      assert rules + more == more;
    }
  }

  /** Registering a rule under a new name (`addRuleOnRequest`) puts it last:
      it is consulted only when every earlier rule's answer is falsy. */
  lemma NewRuleIsConsultedLast<A>(rules: Entries<A -> Value>, name: string, rule: A -> Value, arg: A, fallback: Value)
    requires !Has(rules, name)
    ensures FirstTruthy(Put(rules, name, rule), arg, fallback)
         == FirstTruthy(rules, arg, if Truthy(rule(arg)) then rule(arg) else fallback)
  {
    PutNewAppends(rules, name, rule);
    FirstTruthyAppend(rules, [(name, rule)], arg, fallback);
  }

  /** Removing a rule (`removeRuleOnRequest`) whose answer was falsy does not
      change the dispatcher's result. */
  lemma {:induction false} RemovingSilentRuleIsHarmless<A>(rules: Entries<A -> Value>, name: string, arg: A, fallback: Value)
    requires forall i :: 0 <= i < |rules| && rules[i].0 == name ==> !Truthy(rules[i].1(arg))
    ensures FirstTruthy(Delete(rules, name), arg, fallback) == FirstTruthy(rules, arg, fallback)
  {
    if rules != [] {
      assert forall i :: 1 <= i < |rules| ==> rules[1..][i - 1] == rules[i];
      RemovingSilentRuleIsHarmless(rules[1..], name, arg, fallback);
    }
  }
}
