/**
 * The "add page variant" wizard: the list of steps it offers, and the small
 * array updates it makes to the values, URL parameters and forms that its
 * parent wizard class produces. The parent's results and the variant
 * plugin's answers are inputs.
 */
module PageVariantAddWizard {
  import opened Wrappers
  import opened PhpArrays
  import opened PhpValues

  /** One wizard step: the `title`, `form` and `values` entries of an operation array (no `values` entry is []). */
  datatype Operation = Operation(title: Value, form: Value, values: PhpArray<Value>)

  /**
   * What `getVariantPlugin()` returns for the variant being added: the plugin
   * object, whether it implements the plugin-wizard interface, and the
   * operations its `getWizardOperations()` gives for the cached values.
   */
  datatype VariantPlugin = VariantPlugin(
    instance: Value,
    isWizard: bool,
    wizardOperations: PhpArray<Value> -> PhpArray<Operation>)

  datatype WizardError =
      /** `->id()` called on something that is not an entity (PHP throws). */
    | NoPageEntity
      /** `->getVariantPlugin()` called on something that is not a page variant (PHP throws). */
    | NoPageVariant
      /** An offset read on an object that is not array-accessible (PHP throws). */
    | ObjectUsedAsArray

  /** The steps `wizard_options` can switch off, in the order they are examined. */
  const OptionalSteps: seq<string> := ["selection", "contexts"]

  const TypeStep := Operation(Markup("Page variant type"), Str("Drupal\\page_manager_ui\\Form\\PageVariantAddForm"), [])
  const ContextsStep := Operation(Markup("Contexts"), Str("Drupal\\page_manager_ui\\Form\\AddVariantContextsForm"), [])
  const SelectionStep := Operation(Markup("Selection criteria"), Str("Drupal\\page_manager_ui\\Form\\AddVariantSelectionForm"), [])
  const ConfigureStep := Operation(Markup("Configure variant"), Str("Drupal\\page_manager_ui\\Form\\PageVariantConfigureForm"), [])

  /** The access checker `initValues` stores under `access`. */
  const AccessChecker := Obj("Drupal\\page_manager_ui\\Access\\PageManagerPluginAccess")

  function DeclaredOperations(): (r: PhpArray<Operation>)
  {
    [("type", TypeStep), ("contexts", ContextsStep), ("selection", SelectionStep), ("configure", ConfigureStep)]
  }

  /** `wizard_options` is set and does not switch `step` on. */
  predicate Hidden(cachedValues: PhpArray<Value>, step: string)
  {
    var options := Get(cachedValues, "wizard_options");
    IsSet(options) && Empty(Offset(options, step))
  }

  /** The optional steps among `steps` that `wizard_options` switches off. */
  function HiddenAmong(cachedValues: PhpArray<Value>, steps: seq<string>): (r: set<string>)
  {
    set s | s in steps && Hidden(cachedValues, s)
  }

  /** The declared steps that survive the optional-step filter, in declared order. */
  function VisibleOperations(cachedValues: PhpArray<Value>): (r: PhpArray<Operation>)
  {
    Without(DeclaredOperations(), HiddenAmong(cachedValues, OptionalSteps))
  }

  /** Whether the variant plugin is asked for steps of its own. */
  predicate AddsPluginSteps(cachedValues: PhpArray<Value>, plugin: VariantPlugin)
  {
    && !Empty(Get(cachedValues, "page_variant"))
    && !Empty(Get(cachedValues, "variant_plugin_id"))
    && plugin.isWizard
  }

  /** A plugin operation with `values['plugin']` set to the plugin. */
  function WithPlugin(operation: Operation, instance: Value): (r: Operation)
  {
    operation.(values := Put(operation.values, "plugin", instance))
  }

  /** Every plugin operation with `values['plugin']` set, keys and order unchanged. */
  function Tagged(contributed: PhpArray<Operation>, instance: Value): (r: PhpArray<Operation>)
  {
    seq(|contributed|, i requires 0 <= i < |contributed| => (contributed[i].0, WithPlugin(contributed[i].1, instance)))
  }

  /** The plugin's operations, asked for with the plugin stored under `plugin` in the cached values. */
  function Contributed(cachedValues: PhpArray<Value>, plugin: VariantPlugin): (r: PhpArray<Operation>)
  {
    plugin.wizardOperations(Put(cachedValues, "plugin", plugin.instance))
  }

  /** A page variant entity: the only kind of value that has `getVariantPlugin()`. */
  predicate IsPageVariant(v: Value)
  {
    v.Entity? && v.entityType == "page_variant"
  }

  /**
   * Why `getOperations` throws, if it does: an object under `wizard_options`
   * fails the first optional-step test, and a non-empty `page_variant` that
   * is not a page variant fails the plugin lookup (when `variant_plugin_id`
   * is non-empty too).
   */
  function OperationsError(cachedValues: PhpArray<Value>): (r: Option<WizardError>)
  {
    var options := Get(cachedValues, "wizard_options");
    var pageVariant := Get(cachedValues, "page_variant");
    if IsSet(options) && IsObject(options.value) then Some(ObjectUsedAsArray)
    else if !Empty(pageVariant) && !Empty(Get(cachedValues, "variant_plugin_id")) && !IsPageVariant(pageVariant.value)
    then Some(NoPageVariant)
    else None
  }

  /** The step list when `getOperations` returns: the visible declared steps, then the plugin's steps assigned over them. */
  function Operations(cachedValues: PhpArray<Value>, plugin: VariantPlugin): (r: PhpArray<Operation>)
  {
    if AddsPluginSteps(cachedValues, plugin)
    then PutAll(VisibleOperations(cachedValues), Tagged(Contributed(cachedValues, plugin), plugin.instance))
    else VisibleOperations(cachedValues)
  }

  /** Assigning the four declared steps into an empty array gives them in declared order. */
  lemma DeclaredInOrder()
    ensures Put(Put(Put(Put([], "type", TypeStep), "contexts", ContextsStep), "selection", SelectionStep), "configure", ConfigureStep)
         == DeclaredOperations()
  {
    PutAppends([], "type", TypeStep);
    var a1 := Put([], "type", TypeStep);
    assert a1 == [("type", TypeStep)];
    PutAppends(a1, "contexts", ContextsStep);
    var a2 := Put(a1, "contexts", ContextsStep);
    assert a2 == [("type", TypeStep), ("contexts", ContextsStep)];
    PutAppends(a2, "selection", SelectionStep);
    var a3 := Put(a2, "selection", SelectionStep);
    assert a3 == [("type", TypeStep), ("contexts", ContextsStep), ("selection", SelectionStep)];
    PutAppends(a3, "configure", ConfigureStep);
  }

  lemma HiddenAmongStep(cachedValues: PhpArray<Value>, steps: seq<string>, n: nat)
    requires n < |steps|
    ensures HiddenAmong(cachedValues, steps[..n + 1])
         == HiddenAmong(cachedValues, steps[..n]) + (if Hidden(cachedValues, steps[n]) then {steps[n]} else {})
  {
    assert steps[..n + 1] == steps[..n] + [steps[n]];
  }

  /** One pass of the optional-step loop unsets the step exactly when `wizard_options` hides it. */
  lemma HideStep(declared: PhpArray<Operation>, cachedValues: PhpArray<Value>, steps: seq<string>, n: nat)
    requires n < |steps|
    ensures Without(declared, HiddenAmong(cachedValues, steps[..n + 1]))
         == if Hidden(cachedValues, steps[n])
            then Remove(Without(declared, HiddenAmong(cachedValues, steps[..n])), steps[n])
            else Without(declared, HiddenAmong(cachedValues, steps[..n]))
  {
    var before := HiddenAmong(cachedValues, steps[..n]);
    HiddenAmongStep(cachedValues, steps, n);
    if Hidden(cachedValues, steps[n]) {
      WithoutWithout(declared, before, {steps[n]});
      assert Remove(Without(declared, before), steps[n]) == Without(Without(declared, before), {steps[n]});
    }
  }

  /** One pass of the plugin loop assigns the next plugin step, tagged with the plugin. */
  lemma AssignStep(visible: PhpArray<Operation>, contributed: PhpArray<Operation>, n: nat, instance: Value)
    requires n < |contributed|
    ensures PutAll(visible, Tagged(contributed[..n + 1], instance))
         == Put(PutAll(visible, Tagged(contributed[..n], instance)), contributed[n].0, WithPlugin(contributed[n].1, instance))
  {
    var e := Tagged(contributed[..n + 1], instance);
    assert e[..n] == Tagged(contributed[..n], instance);
  }

  /** `initValues`: the parent's initial values with the access checker stored under `access`. */
  method InitValues(parentValues: PhpArray<Value>) returns (cachedValues: PhpArray<Value>)
    ensures Get(cachedValues, "access") == Some(AccessChecker)
    ensures forall k :: k != "access" ==> Get(cachedValues, k) == Get(parentValues, k)
    ensures Keys(cachedValues) == if "access" in Keys(parentValues) then Keys(parentValues) else Keys(parentValues) + ["access"]
  {
    cachedValues := parentValues;
    cachedValues := Put(cachedValues, "access", AccessChecker);
    PutFacts(parentValues, "access", AccessChecker);
  }

  /** `getOperations`: the wizard's steps for the given cached values, or the error PHP throws. */
  method GetOperations(cachedValues: PhpArray<Value>, plugin: VariantPlugin)
    returns (r: Result<PhpArray<Operation>, WizardError>)
    ensures r.Failure? <==> OperationsError(cachedValues).Some?
    ensures r.Failure? ==> r.error == OperationsError(cachedValues).value
    ensures r.Success? ==> r.value == Operations(cachedValues, plugin)
  {
    var operations := [];
    operations := Put(operations, "type", TypeStep);
    operations := Put(operations, "contexts", ContextsStep);
    operations := Put(operations, "selection", SelectionStep);
    operations := Put(operations, "configure", ConfigureStep);
    DeclaredInOrder();

    // Hide the optional steps that wizard_options does not switch on.
    ghost var declared := operations;
    WithoutNothing(declared);
    assert HiddenAmong(cachedValues, OptionalSteps[..0]) == {};
    var i := 0;
    while i < |OptionalSteps|
      invariant 0 <= i <= |OptionalSteps|
      invariant operations == Without(declared, HiddenAmong(cachedValues, OptionalSteps[..i]))
      invariant 0 < i ==> OperationsError(cachedValues) != Some(ObjectUsedAsArray)
    {
      var stepName := OptionalSteps[i];
      var options := Get(cachedValues, "wizard_options");
      if IsSet(options) && IsObject(options.value) {
        return Failure(ObjectUsedAsArray);
      }
      HideStep(declared, cachedValues, OptionalSteps, i);
      if IsSet(options) && Empty(Offset(options, stepName)) {
        operations := Remove(operations, stepName);
      }
      i := i + 1;
    }
    assert OptionalSteps[..i] == OptionalSteps;

    // Add the plugin's own steps.
    var pageVariant := Get(cachedValues, "page_variant");
    if !Empty(pageVariant) && !Empty(Get(cachedValues, "variant_plugin_id")) {
      if !IsPageVariant(pageVariant.value) {
        return Failure(NoPageVariant);
      }
      if plugin.isWizard {
        var pluginValues := Put(cachedValues, "plugin", plugin.instance);
        var contributed := plugin.wizardOperations(pluginValues);
        ghost var visible := operations;
        var j := 0;
        while j < |contributed|
          invariant 0 <= j <= |contributed|
          invariant operations == PutAll(visible, Tagged(contributed[..j], plugin.instance))
        {
          var name := contributed[j].0;
          var operation := contributed[j].1;
          operation := operation.(values := Put(operation.values, "plugin", plugin.instance));
          AssignStep(visible, contributed, j, plugin.instance);
          operations := Put(operations, name, operation);
          j := j + 1;
        }
        assert contributed[..j] == contributed;
      }
    }
    r := Success(operations);
  }

  /**
   * `customizeForm` on the parent's form: on the `type` step, drop
   * `form['name']['id']` when it is set; PHP throws when `form['name']` is
   * an object.
   */
  method CustomizeForm(step: string, parentForm: PhpArray<Value>) returns (r: Result<PhpArray<Value>, WizardError>)
    ensures r.Failure? <==> step == "type" && Get(parentForm, "name").Some? && IsObject(Get(parentForm, "name").value)
    ensures r.Failure? ==> r.error == ObjectUsedAsArray
    ensures r.Success? && step == "type" && IsSet(Offset(Get(parentForm, "name"), "id")) ==>
      var name := Get(parentForm, "name").value.entries;
      && Keys(r.value) == Keys(parentForm)
      && (forall k :: k != "name" ==> Get(r.value, k) == Get(parentForm, k))
      && Get(r.value, "name").Some? && Get(r.value, "name").value.Arr?
      && Keys(Get(r.value, "name").value.entries) == KeysOutside(Keys(name), {"id"})
      && "id" !in Keys(Get(r.value, "name").value.entries)
      && (forall k :: k != "id" ==> Get(Get(r.value, "name").value.entries, k) == Get(name, k))
    ensures r.Success? && !(step == "type" && IsSet(Offset(Get(parentForm, "name"), "id"))) ==> r.value == parentForm
  {
    var form := parentForm;
    if step == "type" && Get(form, "name").Some? && IsObject(Get(form, "name").value) {
      return Failure(ObjectUsedAsArray);
    }
    if step == "type" && IsSet(Offset(Get(form, "name"), "id")) {
      var name := Get(form, "name").value.entries;
      ghost var oldName := name;
      name := Remove(name, "id");
      WithoutFacts(oldName, {"id"});
      form := Put(form, "name", Arr(name));
      PutFacts(parentForm, "name", Arr(name));
      GetFound(parentForm, "name");
    }
    r := Success(form);
  }

  /** The parent's URL parameters with `page` set to the id of the cached page. */
  ghost predicate PageParameterAdded(parentParameters: PhpArray<Value>, cachedValues: PhpArray<Value>, parameters: PhpArray<Value>)
  {
    && Get(cachedValues, "page").Some? && Get(cachedValues, "page").value.Entity?
    && Get(parameters, "page") == Some(Str(Get(cachedValues, "page").value.id))
    && (forall k :: k != "page" ==> Get(parameters, k) == Get(parentParameters, k))
    && Keys(parameters) == if "page" in Keys(parentParameters) then Keys(parentParameters) else Keys(parentParameters) + ["page"]
  }

  /** `getNextParameters`: fails exactly when the cached `page` is not an entity. */
  method GetNextParameters(parentParameters: PhpArray<Value>, cachedValues: PhpArray<Value>)
    returns (r: Result<PhpArray<Value>, WizardError>)
    ensures r.Success? <==> Get(cachedValues, "page").Some? && Get(cachedValues, "page").value.Entity?
    ensures r.Success? ==> PageParameterAdded(parentParameters, cachedValues, r.value)
  {
    var parameters := parentParameters;
    var page := Get(cachedValues, "page");
    if page.Some? && page.value.Entity? {
      parameters := Put(parameters, "page", Str(page.value.id));
      PutFacts(parentParameters, "page", Str(page.value.id));
      r := Success(parameters);
    } else {
      r := Failure(NoPageEntity);
    }
  }

  /** `getPreviousParameters`: fails exactly when the cached `page` is not an entity. */
  method GetPreviousParameters(parentParameters: PhpArray<Value>, cachedValues: PhpArray<Value>)
    returns (r: Result<PhpArray<Value>, WizardError>)
    ensures r.Success? <==> Get(cachedValues, "page").Some? && Get(cachedValues, "page").value.Entity?
    ensures r.Success? ==> PageParameterAdded(parentParameters, cachedValues, r.value)
  {
    var parameters := parentParameters;
    var page := Get(cachedValues, "page");
    if page.Some? && page.value.Entity? {
      parameters := Put(parameters, "page", Str(page.value.id));
      PutFacts(parentParameters, "page", Str(page.value.id));
      r := Success(parameters);
    } else {
      r := Failure(NoPageEntity);
    }
  }
}
