# Trip-application form layer, modelled in Dafny

This project models the form layer of the trip-management web application
(`viajes/forms.py`). It covers two things.

- **The clean hooks.** The registration form and the user-edit form normalise
  names: first and last names are capitalised (first character upper-case,
  the rest lower-case), and the username is lower-cased.
- **The construction-time passes over each form's field table.**
  - The guide form puts `class="form-control"` on every field.
  - The pilot form fills the `avatar` choices from the sorted directory listing.
  - The trip form does four things in order:
    1. It styles every field whose widget is not a checkbox multi-select.
    2. It stamps `id="id_pilotos"` on `pilotos` and overrides two labels.
    3. It picks the guide's empty-option label from whether any guide exists.
    4. It replaces `activo` with a two-choice state field.

## Modules

- `wrappers.dfy`, module `Wrappers`: `Option` and `Result`.
- `case_mapping.dfy`, module `CaseMapping`: ASCII case mapping, with
  `str.lower()` as `Lower` and `str.capitalize()` as `Capitalize`.
  - `Lower` is stated character by character.
  - `Capitalize` is stated by `IsCapitalizationOf`.
  - Lemmas cover idempotence, the interaction of the two, and uniqueness of the
    capitalisation.
- `ordering.dfy`, module `Ordering`: the order Python's `sorted` gives strings.
  - Strings compare by code point, character by character, and a proper prefix
    comes first.
  - `Sort` is a reference insertion sort.
  - `AscendingUnique` proves that the ascending permutation of a sequence is
    unique. So `Sort` agrees with any correct sort, and the result does not
    depend on the order of the directory listing.
- `fields.dfy`, module `Fields`: the field table.
  - A field has a kind, a widget (a kind plus an attribute map), a label, a
    required flag, choices and an empty-option label.
  - A form's `self.fields` is an ordered table: a sequence of names kept in
    dictionary insertion order, plus a `map` from name to field.
- `forms.dfy`, module `Forms`:
  - The clean hooks are member functions of the datatypes `RegistroForm` and
    `EditarUsuarioForm`. Each datatype holds the form's `cleaned_data`.
  - The three model forms are classes `GuiaForm`, `PilotoForm` and `ViajeForm`.
    Each holds `names` and `fields`. Its constructor takes the table the
    framework built and runs the `__init__` pass in place.
  - Each pass is proved equal to a specification function on the table:
    `GuiaFields`, `PilotoFields`, `ViajeFields` and `ViajeNames`. The
    properties the source promises are the `ensures` clauses of those
    functions and the lemmas beside them.

### Behaviour the model follows from the code

- The trip form exempts a field from the `form-control` class by its **widget
  kind** (`CheckboxSelectMultiple`), not by its name (viajes/forms.py:172).
  - No widget override for `pilotos` appears in its `Meta`.
  - The framework's default widget for a many-to-many field is a plain
    multi-select.
  - So on that default, `pilotos` *is* styled, as `DefaultPilotosWidgetIsStyled`
    states. The widget kind of every field is an input of the model.
- The pilot form adds no `form-control` class to any field. Its `__init__`
  (viajes/forms.py:140-144) only fills the avatar choices.
- Sorting is by code point, so `"C.png"` sorts before `"a.png"`
  (`Ordering.SortExample`).

## Model

| member | source | states |
|---|---|---|
| `CaseMapping.Lower` | viajes/forms.py:44-46 | `username.lower()` keeps the length, maps each character to its lower case, and leaves no upper-case character |
| `CaseMapping.Capitalize` | viajes/forms.py:36-42 | `capitalize()` keeps the length, upper-cases the first character and lower-cases every later one; empty in gives empty out; no later character is upper-case |
| `CaseMapping.CapitalizationUnique` | viajes/forms.py:36-42 | the character-by-character description of capitalisation determines the result |
| `CaseMapping.LowerIdempotent` | viajes/forms.py:44-46 | lower-casing twice equals lower-casing once |
| `CaseMapping.CapitalizeIdempotent` | viajes/forms.py:36-42 | capitalising twice equals capitalising once |
| `CaseMapping.CapitalizeIgnoresCase` | viajes/forms.py:36-42 | capitalising ignores the case the input was typed in, and lower-casing a capitalised name gives the lower-cased input |
| `CaseMapping.Examples` | viajes/forms.py:36-46 | `"John"` lower-cases to `"john"`; `"maría"` capitalises to `"María"` and `"jOHN"` to `"John"`; `""` stays `""` |
| `Forms.RegistroForm.CleanFirstName` | viajes/forms.py:36-38 | the cleaned first name is the capitalisation of the submitted one; a missing value defaults to `''` and gives `''` |
| `Forms.RegistroForm.CleanLastName` | viajes/forms.py:40-42 | the cleaned last name is the capitalisation of the submitted one; a missing value gives `''` |
| `Forms.RegistroForm.CleanUsername` | viajes/forms.py:44-46 | the cleaned username is the submitted one lower-cased character by character, with no upper-case character; a missing value gives `''` |
| `Forms.RegistroCleanIdempotent` | viajes/forms.py:36-46 | cleaning an already-cleaned first name, last name or username leaves it unchanged |
| `Forms.EditarUsuarioForm.CleanFirstName` | viajes/forms.py:71-72 | fails with a `KeyError` exactly when `first_name` is missing, and otherwise returns its capitalisation |
| `Forms.EditarUsuarioForm.CleanLastName` | viajes/forms.py:74-75 | fails with a `KeyError` exactly when `last_name` is missing, and otherwise returns its capitalisation |
| `Forms.FormsAgreeOnNames` | viajes/forms.py:71-75 | where the edit form finds a name, it normalises it exactly as the registration form does |
| `Forms.GuiaFields` | viajes/forms.py:105-108 | after the guide form's pass, the field names are unchanged and every field has `class == 'form-control'`; every other attribute (such as `type=date` or `rows=4`) and every non-widget property is preserved |
| `Forms.GuiaForm.constructor` | viajes/forms.py:105-108 | the loop over `self.fields` leaves the ordered table well formed, keeps the field order, and produces exactly `GuiaFields` of the framework's table |
| `Ordering.Sort` | viajes/forms.py:143 | `sorted(...)` returns a permutation of its input (same length, same multiset) in ascending code-point order |
| `Ordering.AscendingUnique` | viajes/forms.py:143 | two ascending sequences with the same elements are equal, so the sorted result is unique |
| `Ordering.SortDeterminedByElements` | viajes/forms.py:143 | two listings with the same names sort to the same sequence, whatever order the directory listed them in |
| `Ordering.SortIdempotent` | viajes/forms.py:143 | sorting a sorted listing changes nothing |
| `Ordering.SortExample` | viajes/forms.py:143 | `["b.png", "a.png", "C.png"]` sorts to `["C.png", "a.png", "b.png"]` |
| `Forms.AvatarChoices` | viajes/forms.py:143-144 | one choice per directory entry, each with value equal to label; the labels are the sorted listing, in ascending code-point order and a permutation of the listing; an empty listing gives no choices |
| `Forms.AvatarChoicesIgnoreListingOrder` | viajes/forms.py:142-144 | the avatar choices depend only on which files are listed, not on the order of the listing |
| `Forms.PilotoFields` | viajes/forms.py:140-144 | after the pilot form's pass, only the `avatar` field's choices change: they become the avatar choices of the listing, and every other field and every other property of `avatar` is as before |
| `Forms.PilotoForm.constructor` | viajes/forms.py:140-144 | the pilot form's table is well formed, keeps its order, and is `PilotoFields` of the framework's table and the listing |
| `Forms.ViajeForm.StyleUnlessCheckbox` | viajes/forms.py:171-173 | the styling loop keeps the names and makes the table `ViajeStyled` of the old one: no field added or removed, `class='form-control'` on every field whose widget is not a checkbox multi-select, checkbox multi-select fields untouched (their `class`, set or absent, kept), every other attribute and field property preserved |
| `Forms.ViajeForm.ApplyOverrides` | viajes/forms.py:174-184 | the statements after the loop change each field exactly as `ViajeOverride` says, keep the names, and add no field |
| `Forms.ViajeForm.ReplaceActivo` | viajes/forms.py:186-191 | assigning `self.fields['activo']` keeps the table well formed, sets `activo` to the state field whatever was there before, leaves every other entry as it was, and orders the names as `ViajeNames` says |
| `Forms.OverridesInSteps` | viajes/forms.py:174-184 | the `pilotos` id assignment, the `km` and `max_pilotos` label assignments and the conditional `guia` empty label, run one after the other, amount to the per-field override on every field |
| `Forms.ViajeFieldSpec` | viajes/forms.py:171-184 | on one field, the pass sets `class` unless the widget is a checkbox multi-select, in which case the previous `class` (set or absent) is kept. It sets `id=id_pilotos` on `pilotos` and touches no other attribute. `km` gets label `'Kilómetros'` and `max_pilotos` gets `'Máxima cantidad de pilotos'`; every other label is unchanged. A `guia` with a queryset gets `'Aún sin asignar'` when no guide exists and `'Seleccione una guía'` otherwise; every other empty label is unchanged. Kind, widget kind, required flag and choices never change |
| `Forms.ViajeFields` | viajes/forms.py:169-191 | the trip form's table has the original names plus `activo`; each original field other than `activo` is the per-field pass of `ViajeFieldSpec`; `activo` is a choice field with a select widget whose attrs are exactly `class=form-control`, choices exactly `[(True,'Activo'), (False,'Borrador')]` and label `'Estado'`, whatever the original `activo` was |
| `Forms.ViajeFieldsStyled` | viajes/forms.py:171-191 | after the whole pass, every field whose widget is not a checkbox multi-select carries `class='form-control'`, including the replaced `activo` |
| `Forms.ViajeFieldsFromOverrides` | viajes/forms.py:186-191 | replacing `activo` in a table that has had the styling and overrides completes the trip form's pass |
| `Forms.ViajeNames` | viajes/forms.py:187-191 | assigning `self.fields['activo']` keeps the existing order: the names are unchanged when `activo` was there, and otherwise `activo` is appended once at the end (the length grows by exactly one); distinct names stay distinct |
| `Forms.DefaultPilotosWidgetIsStyled` | viajes/forms.py:171-174 | with the framework's default multi-select widget, `pilotos` gets both `class='form-control'` and `id='id_pilotos'` |
| `Forms.ViajeForm.constructor` | viajes/forms.py:169-191 | the trip form's `__init__` leaves a well-formed table whose order is `ViajeNames` of the original and whose fields are exactly `ViajeFields` of the framework's table |
| `Fields.PutKeepsWellFormed` | viajes/forms.py:187-191 | assigning a key in the ordered field table keeps the names distinct and the names equal to the map's keys, appending a new key at the end |

## Left out

- The framework machinery is not part of this model, so each form's initial
  field table is an input.
  - This covers the `ModelForm` metaclass, building fields from the models and
    `Meta`, the `cleaned_data` pipeline, and the framework's own validation.
  - That validation includes e-mail syntax, `%Y-%m-%d` date parsing,
    `max_length=30`, and choice membership.
  - Label and widget declarations in `Meta` and on declared fields only shape
    that initial table.
- Password strength, password match and username uniqueness belong to
  `UserCreationForm`, a library class. That class is not part of this model.
- Reading the avatar directory is I/O. `os.listdir` and the path join with the
  settings' base directory become the `listing` parameter. A directory that
  cannot be listed is not modelled.
- The query `queryset.exists()` hits the database. It becomes the
  `guidesExist` parameter.
- Case mapping covers ASCII letters only. Python's full Unicode lower-casing
  and title-casing (and their special cases, such as characters whose case
  mapping changes the length) are not modelled. Other characters pass through
  unchanged.
- Rendering is not modelled. This includes what widget attributes mean, and
  the copy of a choice field's choices that the framework keeps on its widget.
- `Forms.ViajeForm.constructor`: requires `pilotos`, `km` and `max_pilotos` to
  be in the table, and does not model the `KeyError` that indexing a missing
  one would raise. The `Meta` field list (viajes/forms.py:163) always puts
  them there.
- `Forms.PilotoFields` and `Forms.PilotoForm.constructor`: require `avatar` to
  be in the table, and do not model the `KeyError` that indexing it would raise.
  `avatar` is a field the form declares itself (viajes/forms.py:131) and lists
  in its `Meta` fields (viajes/forms.py:135), so the framework always builds it.
- Fields are modelled as values in a map. The framework deep-copies fields and
  widgets for every form instance, so no two entries share a widget. In-place
  mutation of a shared field object therefore has nothing to capture.
