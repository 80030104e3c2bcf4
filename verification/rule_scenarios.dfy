/** Clients of the rule's contracts, following the rule's own test class: a random-port
    rule started with a custom callback, checked after start and torn down twice. */
module RuleScenarios {
  import opened Sockets
  import opened HttpMocking
  import opened Jadler

  /** `customMockerConfigurationApplied`: the callback's `configure` runs on the configuration
      before the mocker is built from it, its `configureMocker` runs on the built mocker before
      `start`, the started mocker is published on the rule's port, and a second `after()`
      issues no further `stop`. */
  method CustomConfigurationScenario(net: Network, callback: Callback)
    modifies net
  {
    var created := JadlerRule.Create(-1, net);
    if created.Failure? {
      return;
    }
    var rule := created.value;
    rule.Before();
    var outcome, mocker := rule.StartMocker(Some(callback), false);
    assert outcome == Started && rule.httpMocker == mocker && mocker.started;
    assert mocker.port == rule.GetMockerPort();
    assert [] + [callback] == [callback];
    assert rule.trace == [Configure(callback), Build(Configuration(rule.mockerPort, [callback]), mocker),
                          ConfigureMocker(callback, mocker), Start(mocker)];
    rule.After(false);
    assert !mocker.started;
    rule.After(false);
    assert rule.trace == [Configure(callback), Build(Configuration(rule.mockerPort, [callback]), mocker),
                          ConfigureMocker(callback, mocker), Start(mocker), Stop(mocker)];
  }

  /** Two `startMocker` calls in one test, each with its own callback: the second mocker is
      built from the same, further configured configuration. The first mocker keeps running
      and holds the rule's port, so the second server cannot bind it and its start fails:
      the outcome is fatal and the first mocker stays published and started. */
  method RestartScenario(rule: JadlerRule, first: Callback, second: Callback)
    requires rule.Valid() && rule.ongoingConfiguration.Some?
    modifies rule
  {
    var before := rule.ongoingConfiguration.value.configuredBy;
    var outcome1, mocker1 := rule.StartMocker(Some(first), false);
    assert outcome1 == Started && rule.httpMocker == mocker1;
    var outcome2, mocker2 := rule.StartMocker(Some(second), true);
    assert rule.ongoingConfiguration.value.configuredBy == before + [first, second];
    assert mocker1.port == mocker2.port == rule.mockerPort;
    assert outcome2 == Fatal(CannotStartMocker(rule.mockerPort));
    assert rule.httpMocker == mocker1 && mocker1.started && !mocker2.started;
  }
}
