/**
 * What the step list of the "add page variant" wizard promises: which
 * declared steps it keeps, in which order, and how the variant plugin's
 * steps are merged into it.
 */
module WizardProperties {
  import opened Wrappers
  import opened PhpArrays
  import opened PhpValues
  import opened PageVariantAddWizard

  lemma WithoutCons<V>(x: (string, V), rest: PhpArray<V>, s: set<string>)
    ensures Without([x] + rest, s) == (if x.0 in s then [] else [x]) + Without(rest, s)
  {
    assert ([x] + rest)[1..] == rest;
  }

  /** The hidden set holds exactly the optional steps that `wizard_options` switches off. */
  lemma HiddenSet(cachedValues: PhpArray<Value>)
    ensures "type" !in HiddenAmong(cachedValues, OptionalSteps)
    ensures "configure" !in HiddenAmong(cachedValues, OptionalSteps)
    ensures "contexts" in HiddenAmong(cachedValues, OptionalSteps) <==> Hidden(cachedValues, "contexts")
    ensures "selection" in HiddenAmong(cachedValues, OptionalSteps) <==> Hidden(cachedValues, "selection")
  {
  }

  /**
   * The declared steps after the optional-step filter: `type`, then
   * `contexts` and `selection` unless hidden, then `configure`, each with
   * its declared title and form.
   */
  lemma VisibleSteps(cachedValues: PhpArray<Value>)
    ensures VisibleOperations(cachedValues)
         == [("type", TypeStep)]
          + (if Hidden(cachedValues, "contexts") then [] else [("contexts", ContextsStep)])
          + (if Hidden(cachedValues, "selection") then [] else [("selection", SelectionStep)])
          + [("configure", ConfigureStep)]
  {
    var s := HiddenAmong(cachedValues, OptionalSteps);
    HiddenSet(cachedValues);
    var d3 := [("configure", ConfigureStep)];
    var d2 := [("selection", SelectionStep)] + d3;
    var d1 := [("contexts", ContextsStep)] + d2;
    assert DeclaredOperations() == [("type", TypeStep)] + d1;
    WithoutCons(("configure", ConfigureStep), [], s);
    WithoutCons(("selection", SelectionStep), d3, s);
    WithoutCons(("contexts", ContextsStep), d2, s);
    WithoutCons(("type", TypeStep), d1, s);
  }

  lemma VisibleKeys(cachedValues: PhpArray<Value>)
    ensures Keys(VisibleOperations(cachedValues))
         == ["type"]
          + (if Hidden(cachedValues, "contexts") then [] else ["contexts"])
          + (if Hidden(cachedValues, "selection") then [] else ["selection"])
          + ["configure"]
    ensures UniqueKeys(VisibleOperations(cachedValues))
  {
    VisibleSteps(cachedValues);
  }

  /** The full list starts with the visible declared steps, whatever the plugin adds. */
  lemma OperationsStartWithVisible(cachedValues: PhpArray<Value>, plugin: VariantPlugin)
    ensures |Operations(cachedValues, plugin)| >= |VisibleOperations(cachedValues)|
    ensures Keys(Operations(cachedValues, plugin))[..|VisibleOperations(cachedValues)|] == Keys(VisibleOperations(cachedValues))
  {
    var v := VisibleOperations(cachedValues);
    if AddsPluginSteps(cachedValues, plugin) {
      PutAllKeys(v, Tagged(Contributed(cachedValues, plugin), plugin.instance));
    }
  }

  /** `type` is always the first step and `configure` is always present, whatever `wizard_options` holds. */
  lemma TypeAndConfigureAlwaysPresent(cachedValues: PhpArray<Value>, plugin: VariantPlugin)
    ensures |Operations(cachedValues, plugin)| >= 2
    ensures Keys(Operations(cachedValues, plugin))[0] == "type"
    ensures "configure" in Keys(Operations(cachedValues, plugin))
  {
    var v := VisibleOperations(cachedValues);
    var ops := Operations(cachedValues, plugin);
    VisibleKeys(cachedValues);
    OperationsStartWithVisible(cachedValues, plugin);
    assert Keys(ops)[|v| - 1] == Keys(v)[|v| - 1] == "configure";
    assert Keys(ops)[0] == Keys(v)[0];
  }

  /** Without `wizard_options`, all four declared steps come first, in declared order. */
  lemma AllStepsWithoutWizardOptions(cachedValues: PhpArray<Value>, plugin: VariantPlugin)
    requires !IsSet(Get(cachedValues, "wizard_options"))
    ensures VisibleOperations(cachedValues) == DeclaredOperations()
    ensures |Operations(cachedValues, plugin)| >= 4
    ensures Keys(Operations(cachedValues, plugin))[..4] == ["type", "contexts", "selection", "configure"]
  {
    VisibleSteps(cachedValues);
    VisibleKeys(cachedValues);
    OperationsStartWithVisible(cachedValues, plugin);
  }

  /**
   * An optional step is dropped from the declared steps exactly when
   * `wizard_options` is set and does not switch it on; it is in the final
   * list when it survived or the plugin supplies a step of that name.
   */
  lemma OptionalStepHiddenIff(cachedValues: PhpArray<Value>, plugin: VariantPlugin, step: string)
    requires step in OptionalSteps
    ensures step in Keys(VisibleOperations(cachedValues)) <==>
      !(IsSet(Get(cachedValues, "wizard_options")) && Empty(Offset(Get(cachedValues, "wizard_options"), step)))
    ensures step in Keys(Operations(cachedValues, plugin)) <==>
      !Hidden(cachedValues, step) || (AddsPluginSteps(cachedValues, plugin) && step in Keys(Contributed(cachedValues, plugin)))
  {
    VisibleKeys(cachedValues);
    var v := VisibleOperations(cachedValues);
    if AddsPluginSteps(cachedValues, plugin) {
      var e := Tagged(Contributed(cachedValues, plugin), plugin.instance);
      PutAllKeys(v, e);
      assert Keys(e) == Keys(Contributed(cachedValues, plugin));
    }
  }

  /** Position of a declared step in the declared order. */
  function DeclaredRank(step: string): (r: nat)
  {
    IndexOf(DeclaredOperations(), step)
  }

  /** The declared steps that survive keep their declared relative order. */
  lemma SurvivingStepsKeepDeclaredOrder(cachedValues: PhpArray<Value>)
    ensures forall i, j :: 0 <= i < j < |VisibleOperations(cachedValues)| ==>
      DeclaredRank(VisibleOperations(cachedValues)[i].0) < DeclaredRank(VisibleOperations(cachedValues)[j].0)
    ensures forall i :: 0 <= i < |VisibleOperations(cachedValues)| ==> VisibleOperations(cachedValues)[i].0 in Keys(DeclaredOperations())
  {
    VisibleSteps(cachedValues);
    assert Keys(DeclaredOperations()) == ["type", "contexts", "selection", "configure"];
    assert DeclaredRank("type") == 0;
    assert DeclaredRank("contexts") == 1;
    assert DeclaredRank("selection") == 2;
    assert DeclaredRank("configure") == 3;
  }

  /**
   * The plugin adds nothing unless `page_variant` and `variant_plugin_id`
   * are both non-empty and the plugin is wizard-capable; a step outside the
   * declared ones always comes from the plugin.
   */
  lemma NoPluginStepsUnlessAllowed(cachedValues: PhpArray<Value>, plugin: VariantPlugin)
    ensures !AddsPluginSteps(cachedValues, plugin) ==> Keys(Operations(cachedValues, plugin)) == Keys(VisibleOperations(cachedValues))
    ensures forall k :: k in Keys(Operations(cachedValues, plugin)) && k !in Keys(DeclaredOperations()) ==>
      AddsPluginSteps(cachedValues, plugin) && k in Keys(Contributed(cachedValues, plugin))
  {
    VisibleKeys(cachedValues);
    assert Keys(DeclaredOperations()) == ["type", "contexts", "selection", "configure"];
    var v := VisibleOperations(cachedValues);
    if AddsPluginSteps(cachedValues, plugin) {
      var e := Tagged(Contributed(cachedValues, plugin), plugin.instance);
      PutAllKeys(v, e);
      assert Keys(e) == Keys(Contributed(cachedValues, plugin));
    }
  }

  lemma {:induction false} LastValueTagged(e: PhpArray<Operation>, instance: Value, k: string)
    ensures LastValue(Tagged(e, instance), k)
         == if LastValue(e, k).Some? then Some(WithPlugin(LastValue(e, k).value, instance)) else None
    decreases |e|
  {
    if e != [] {
      var n := |e| - 1;
      assert Tagged(e, instance)[..n] == Tagged(e[..n], instance);
      LastValueTagged(e[..n], instance, k);
    }
  }

  /**
   * A step the plugin supplies holds the plugin's last entry for that name,
   * with `values['plugin']` set to the plugin.
   */
  lemma PluginStepsCarryPlugin(cachedValues: PhpArray<Value>, plugin: VariantPlugin, k: string)
    requires AddsPluginSteps(cachedValues, plugin)
    requires k in Keys(Contributed(cachedValues, plugin))
    ensures LastValue(Contributed(cachedValues, plugin), k).Some?
    ensures Get(Operations(cachedValues, plugin), k) == Some(WithPlugin(LastValue(Contributed(cachedValues, plugin), k).value, plugin.instance))
    ensures Get(Get(Operations(cachedValues, plugin), k).value.values, "plugin") == Some(plugin.instance)
  {
    var c := Contributed(cachedValues, plugin);
    var e := Tagged(c, plugin.instance);
    assert Keys(e) == Keys(c);
    LastValueFound(c, k);
    PutAllGet(VisibleOperations(cachedValues), e, k);
    LastValueTagged(c, plugin.instance, k);
    var op := LastValue(c, k).value;
    PutFacts(op.values, "plugin", plugin.instance);
  }

  lemma {:induction false} LastValueFound<V>(e: seq<(string, V)>, k: string)
    ensures LastValue(e, k).Some? <==> k in Keys(e)
    decreases |e|
  {
    if e != [] {
      var n := |e| - 1;
      KeysSnoc(e);
      LastValueFound(e[..n], k);
    }
  }

  /** Every surviving declared step keeps its position in the final list. */
  lemma SurvivingStepsStayInPlace(cachedValues: PhpArray<Value>, plugin: VariantPlugin, k: string)
    requires k in Keys(VisibleOperations(cachedValues))
    ensures IndexOf(Operations(cachedValues, plugin), k) == IndexOf(VisibleOperations(cachedValues), k)
  {
    var v := VisibleOperations(cachedValues);
    var ops := Operations(cachedValues, plugin);
    OperationsStartWithVisible(cachedValues, plugin);
    forall j | 0 <= j < |v| ensures ops[j].0 == v[j].0 {
      assert Keys(ops)[..|v|][j] == Keys(v)[j];
    }
    IndexOfFound(v, k);
    IndexOfPrefix(v, ops, k);
  }

  /** A surviving declared step keeps its declared entry unless the plugin supplies a step of the same name. */
  lemma SurvivingStepsKeepEntry(cachedValues: PhpArray<Value>, plugin: VariantPlugin, k: string)
    requires k in Keys(VisibleOperations(cachedValues))
    requires !(AddsPluginSteps(cachedValues, plugin) && k in Keys(Contributed(cachedValues, plugin)))
    ensures Get(Operations(cachedValues, plugin), k) == Get(DeclaredOperations(), k)
  {
    var v := VisibleOperations(cachedValues);
    WithoutFacts(DeclaredOperations(), HiddenAmong(cachedValues, OptionalSteps));
    if AddsPluginSteps(cachedValues, plugin) {
      var e := Tagged(Contributed(cachedValues, plugin), plugin.instance);
      assert Keys(e) == Keys(Contributed(cachedValues, plugin));
      PutAllGet(v, e, k);
    }
  }

  /**
   * The plugin's names that are not surviving steps are appended after them,
   * each once, in the order the plugin first gives them.
   */
  lemma NewPluginStepsAppended(cachedValues: PhpArray<Value>, plugin: VariantPlugin)
    requires AddsPluginSteps(cachedValues, plugin)
    ensures Keys(Operations(cachedValues, plugin))
         == Keys(VisibleOperations(cachedValues)) + NewKeys(Keys(VisibleOperations(cachedValues)), Keys(Contributed(cachedValues, plugin)))
  {
    var e := Tagged(Contributed(cachedValues, plugin), plugin.instance);
    assert Keys(e) == Keys(Contributed(cachedValues, plugin));
    PutAllKeys(VisibleOperations(cachedValues), e);
  }

  /** An optional step that was hidden but that the plugin supplies comes back after `configure`, not in its declared place. */
  lemma HiddenStepReturnsAtEnd(cachedValues: PhpArray<Value>, plugin: VariantPlugin, step: string)
    requires AddsPluginSteps(cachedValues, plugin)
    requires step in OptionalSteps && Hidden(cachedValues, step)
    requires step in Keys(Contributed(cachedValues, plugin))
    ensures step in Keys(Operations(cachedValues, plugin))
    ensures IndexOf(Operations(cachedValues, plugin), "configure") < IndexOf(Operations(cachedValues, plugin), step)
  {
    var v := VisibleOperations(cachedValues);
    var ops := Operations(cachedValues, plugin);
    VisibleKeys(cachedValues);
    NewPluginStepsAppended(cachedValues, plugin);
    SurvivingStepsStayInPlace(cachedValues, plugin, "configure");
    IndexOfFound(ops, step);
    IndexOfFound(v, "configure");
    assert step !in Keys(v);
    var i := IndexOf(ops, step);
    assert Keys(ops)[i] == step;
  }

  /** The step list never holds a name twice. */
  lemma OperationsUniqueKeys(cachedValues: PhpArray<Value>, plugin: VariantPlugin)
    ensures UniqueKeys(Operations(cachedValues, plugin))
  {
    VisibleKeys(cachedValues);
    if AddsPluginSteps(cachedValues, plugin) {
      PutAllUnique(VisibleOperations(cachedValues), Tagged(Contributed(cachedValues, plugin), plugin.instance));
    }
  }
}
