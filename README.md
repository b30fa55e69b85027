# Page variant add wizard — Dafny model

This project models the core of `PageVariantAddWizard`, the Drupal page_manager
wizard that adds a variant to a page. The wizard's own logic is small. It
computes the ordered list of wizard steps (`getOperations`), and it makes small
array updates to what its parent wizard class returns: `initValues`,
`customizeForm`, `getNextParameters` and `getPreviousParameters`.

- `getOperations` declares four steps in order: `type`, `contexts`,
  `selection`, `configure`. If `wizard_options` is set, it unsets `selection`
  and then `contexts` whenever its entry for that step is empty. If
  `page_variant` and `variant_plugin_id` are both non-empty and the variant
  plugin is wizard-capable, it assigns each plugin step into the list, with
  `values['plugin']` set to the plugin.
- PHP arrays are ordered maps. Assigning to an existing key overwrites the entry
  where it is. Assigning to a new key appends it. `unset` removes the entry.
  Module `PhpArrays` models this (`Put`, `Without`/`Remove`, `PutAll` for a
  `foreach` of assignments). Module `PhpValues` models the values and PHP's
  `isset()` and `empty()`.
- PHP arrays are values, so the methods work on local `seq` variables and
  reassign them step by step. The two `foreach` loops of `getOperations` are
  `while` loops. Their invariants tie the partial list to the specification
  function `Operations`, and module `WizardProperties` proves the step-list
  properties about that function.
- Inputs stand for the parts the model cannot see: the parent class's results
  (initial values, URL parameters, form), the wizard's current step name, and
  the variant plugin (`VariantPlugin`). `VariantPlugin` holds the plugin object,
  whether it implements the plugin-wizard interface, and what its
  `getWizardOperations()` returns for given cached values.

The final step list is not always an order-preserving subset of the declared
steps. The plugin can add steps of its own. It can also bring back an optional
step that `wizard_options` hid, and that step then goes after `configure`, not
in its declared place (`HiddenStepReturnsAtEnd`).

Where PHP throws, the model returns a `Failure`. This covers `->id()` on a
`page` that is not an entity, `->getVariantPlugin()` on a `page_variant` that
is not a page variant, and an offset read on an object (`wizard_options` in
`getOperations`, `form['name']` in `customizeForm`).

## Model

| member | source | states |
|---|---|---|
| PageVariantAddWizard.GetOperations | page_manager_ui/src/Wizard/PageVariantAddWizard.php:68-113 | Fails exactly when PHP throws: with `ObjectUsedAsArray` when `wizard_options` is an object, otherwise with `NoPageVariant` when `page_variant` and `variant_plugin_id` are non-empty and `page_variant` is not a page variant. Otherwise the list built by the keyed assignments, the unset loop over the optional steps and the plugin-assignment loop equals `Operations`: the visible declared steps, with the plugin's tagged steps assigned over them when the plugin is consulted |
| PageVariantAddWizard.DeclaredInOrder | page_manager_ui/src/Wizard/PageVariantAddWizard.php:69-85 | Assigning the four steps into an empty array gives `type, contexts, selection, configure` in that order, with their titles and forms |
| PageVariantAddWizard.HideStep | page_manager_ui/src/Wizard/PageVariantAddWizard.php:89-93 | One pass of the optional-step loop unsets the step exactly when `wizard_options` is set and does not enable it; otherwise the list is unchanged |
| PageVariantAddWizard.InitValues | page_manager_ui/src/Wizard/PageVariantAddWizard.php:59-63 | The result holds the access checker under `access`, every other key holds the parent's value, and the keys keep their order (`access` appended if new) |
| PageVariantAddWizard.CustomizeForm | page_manager_ui/src/Wizard/PageVariantAddWizard.php:118-127 | Fails exactly on the `type` step when `form['name']` is an object. Otherwise, on the `type` step when `form['name']['id']` is set, that element is gone, the other keys of `name` keep their order and values, and the rest of the form is unchanged; in every other case the form is returned untouched |
| PageVariantAddWizard.GetNextParameters | page_manager_ui/src/Wizard/PageVariantAddWizard.php:156-162 | Succeeds exactly when the cached `page` is an entity; then `page` is its id and every other parameter is the parent's |
| PageVariantAddWizard.GetPreviousParameters | page_manager_ui/src/Wizard/PageVariantAddWizard.php:167-173 | Same contract as the next-step parameters: `page` set to the page id, every other parameter unchanged, failure when `page` is not an entity |
| PhpArrays.PutFacts | page_manager_ui/src/Wizard/PageVariantAddWizard.php:107 | A keyed assignment stores the value under the key, leaves every other key's value alone, keeps an existing key in place or appends a new one, and keeps keys unique |
| PhpArrays.WithoutFacts | page_manager_ui/src/Wizard/PageVariantAddWizard.php:91 | Unsetting keys keeps exactly the other keys, in their old order (`KeysOutside`) and each with its old value, and keeps keys unique |
| PhpArrays.WithoutKeysInOrder | page_manager_ui/src/Wizard/PageVariantAddWizard.php:91 | The keys left after unsetting are the old keys outside the unset set, in their old order |
| PhpArrays.WithoutWithout | page_manager_ui/src/Wizard/PageVariantAddWizard.php:89-93 | Unsetting one set of keys and then another is the same as unsetting both at once |
| PhpArrays.PutAllKeys | page_manager_ui/src/Wizard/PageVariantAddWizard.php:105-108 | After a run of assignments the old keys stay in place, and the new keys follow, each once, in first-seen order |
| PhpArrays.PutAllGet | page_manager_ui/src/Wizard/PageVariantAddWizard.php:105-108 | After a run of assignments each assigned key holds its last assigned value, and every other key holds its old value |
| PhpArrays.PutAllUnique | page_manager_ui/src/Wizard/PageVariantAddWizard.php:105-108 | A run of assignments never makes a key appear twice |
| WizardProperties.VisibleSteps | page_manager_ui/src/Wizard/PageVariantAddWizard.php:70-93 | After filtering, the declared steps are exactly `type`, then `contexts` and `selection` each unless hidden, then `configure`, each with its declared entry |
| WizardProperties.OperationsStartWithVisible | page_manager_ui/src/Wizard/PageVariantAddWizard.php:96-108 | Whatever the plugin adds, the final list starts with the visible declared steps, in the same order |
| WizardProperties.TypeAndConfigureAlwaysPresent | page_manager_ui/src/Wizard/PageVariantAddWizard.php:70-88 | Whatever `wizard_options` and the plugin hold, `type` is the first step and `configure` is present |
| WizardProperties.AllStepsWithoutWizardOptions | page_manager_ui/src/Wizard/PageVariantAddWizard.php:70-93 | When `wizard_options` is not set, no step is removed, and the first four steps are `type, contexts, selection, configure`, ahead of any plugin step |
| WizardProperties.OptionalStepHiddenIff | page_manager_ui/src/Wizard/PageVariantAddWizard.php:88-93 | An optional step survives the filter if and only if `wizard_options` is unset or enables it; it is in the final list if and only if it survived or the consulted plugin supplies that name |
| WizardProperties.SurvivingStepsKeepDeclaredOrder | page_manager_ui/src/Wizard/PageVariantAddWizard.php:70-93 | The surviving steps are declared steps and keep their declared relative order |
| WizardProperties.NoPluginStepsUnlessAllowed | page_manager_ui/src/Wizard/PageVariantAddWizard.php:96-112 | Unless `page_variant` and `variant_plugin_id` are non-empty and the plugin is wizard-capable, the result holds exactly the filtered declared steps; any step that is not declared came from the plugin |
| WizardProperties.PluginStepsCarryPlugin | page_manager_ui/src/Wizard/PageVariantAddWizard.php:105-107 | Each name the plugin supplies holds the plugin's last entry for it, with `values['plugin']` set to the plugin |
| WizardProperties.SurvivingStepsStayInPlace | page_manager_ui/src/Wizard/PageVariantAddWizard.php:105-108 | A surviving declared step has the same position in the final list as after filtering, including when the plugin overrides it |
| WizardProperties.SurvivingStepsKeepEntry | page_manager_ui/src/Wizard/PageVariantAddWizard.php:96-108 | A surviving declared step that the plugin does not override keeps its declared title and form |
| WizardProperties.NewPluginStepsAppended | page_manager_ui/src/Wizard/PageVariantAddWizard.php:105-108 | Plugin names that are not surviving steps are appended after them, each once, in the order the plugin first gives them |
| WizardProperties.HiddenStepReturnsAtEnd | page_manager_ui/src/Wizard/PageVariantAddWizard.php:89-108 | An optional step that `wizard_options` hid but the plugin supplies is in the list after `configure` |
| WizardProperties.OperationsUniqueKeys | page_manager_ui/src/Wizard/PageVariantAddWizard.php:68-113 | The step list never holds a name twice |

## Left out

- `buildForm` (page_manager_ui/src/Wizard/PageVariantAddWizard.php:132-151) and `finish` (:178-196). They load and save temporary storage, add the variant to the page entity, print a message and redirect. This is persistence and UI work, not modelled.
- The parent class `EntityFormWizardBase` is not part of this model. Each `parent::` result (initial values, URL parameters, the customised form) is an arbitrary input array.
- `getVariantPlugin()`, `getWizardOperations()` and the interface checks on the plugin are foreign calls. `VariantPlugin` stands for their results. `setContexts()` (:101-103) only affects the plugin object and is left out.
- `$cached_values['plugin'] = $variant_plugin` (:104) changes only the copy that is passed to `getWizardOperations()`. The model passes that copy to the plugin's input function.
- The constant getters (`getEntityType`, `exists`, `getWizardLabel`, `getMachineLabel`, `getRouteName`, :24-54) have no logic. Translated titles are `Markup` values holding the source string, and form classes are their class-name strings.
- PHP integer keys, and the conversion of numeric string keys to integers, are not modelled. Keys are strings.
- Floats are not among the modelled values, so `empty()` on a float is not covered.
- An operation array is modelled by its `title`, `form` and `values` entries. Other entries of a plugin's operation are not modelled. A missing `values` entry is an empty array. A `values` entry that is a scalar (PHP raises an error when it is written through) is not modelled.
- Objects that implement `ArrayAccess` are not modelled. Every object value is one whose offsets PHP cannot read, so an object under `wizard_options` (:90) or `form['name']` (:122) gives `Failure(ObjectUsedAsArray)`. Strings and other scalars there have no elements, as in PHP.
- `getVariantPlugin()` exists only on page variant entities (`Entity("page_variant", …)`). On any other non-empty `page_variant` the model returns `Failure(NoPageVariant)` where PHP throws.
- `$this->step` is passed to `CustomizeForm` as a parameter. Object identity is not modelled: each `new PageManagerPluginAccess()` is the same `Obj` value.
- GetNextParameters, GetPreviousParameters: `id()` is modelled only for entity values, and it returns their string id. On any other `page` value the model returns `Failure(NoPageEntity)`, where PHP throws an error.
