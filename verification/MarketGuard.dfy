/** The guard in front of every market call (runtime/market_guard.py). */
module MarketGuard {
  import opened Wrappers
  import opened Domain
  import opened Risk

  function BusinessTarget(platform: string): string { "market:" + platform }

  /** The context of a market call carries no requested value: its size is bound already. */
  function CallContext(platform: string, request: Request): Context {
    Context(BusinessTarget(platform), platform, None, request)
  }

  function GuardVerdict(
    engines: seq<Engine>, globMatch: (string, string) -> bool, platform: string,
    operation: string, request: Request): Verdict
  {
    EnginesVerdict(engines, globMatch, BusinessTarget(platform), operation, CallContext(platform, request))
  }

  class GuardedMarketApi {
    const platform: string
    const risk: RiskCoordinator

    constructor (platform: string, risk: RiskCoordinator)
      ensures this.platform == platform && this.risk == risk
    {
      this.platform, this.risk := platform, risk;
    }

    /** The call may go ahead only on ALLOW; a market call cannot be made smaller here. */
    method Check(operation: string, request: Request) returns (passed: bool)
      ensures passed <==> GuardVerdict(risk.engines, risk.globMatch, platform, operation, request) == Allowed
    {
      var target := BusinessTarget(platform);
      var verdict := risk.Evaluate(target, operation, CallContext(platform, request));
      if verdict.Adjusted? {
        return false;
      }
      if verdict.Refuses() {
        return false;
      }
      passed := true;
    }
  }

  /** A market call passes exactly when every engine that covers the platform says ALLOW to it. */
  lemma GuardPassesOnlyOnUnanimousAllow(
    engines: seq<Engine>, globMatch: (string, string) -> bool, platform: string,
    operation: string, request: Request)
    ensures GuardVerdict(engines, globMatch, platform, operation, request) == Allowed
       <==> forall e :: e in engines
                   && (e.target == "market:" + platform || globMatch("market:" + platform, e.target))
              ==> && e.answer(operation, Context("market:" + platform, platform, None, request)).Said?
                  && Upper(e.answer(operation, Context("market:" + platform, platform, None, request)).outcome) == "ALLOW"
  {
    var target, context := "market:" + platform, Context("market:" + platform, platform, None, request);
    var chain := Applicable(engines, globMatch, target);
    var answers := Answers(chain, operation, context);
    assert GuardVerdict(engines, globMatch, platform, operation, request) == ChainVerdict(answers, None);
    ChainInWords(answers, None);
    forall e ensures e in chain <==> e in engines && (e.target == target || globMatch(target, e.target)) {
      ApplicableIsFilter(engines, globMatch, target, e);
    }
    assert forall i :: 0 <= i < |answers| ==> answers[i] == chain[i].answer(operation, context);
    if GuardVerdict(engines, globMatch, platform, operation, request) == Allowed {
      forall e | e in chain
        ensures e.answer(operation, context).Said? && Upper(e.answer(operation, context).outcome) == "ALLOW"
      {
        var i :| 0 <= i < |chain| && chain[i] == e;
        assert answers[i] == e.answer(operation, context);
      }
    }
  }
}
