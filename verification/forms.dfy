/**
 * The form layer of the trip application (viajes/forms.py): the clean hooks that
 * normalise names, and the construction-time passes of the guide, pilot and trip
 * forms over their field tables. The framework builds each table from the model
 * before the pass runs; here that table is an input.
 */
module Forms {
  import opened Wrappers
  import opened CaseMapping
  import opened Ordering
  import opened Fields

  const FORM_CONTROL := "form-control"
  const KM_LABEL := "Kilómetros"
  const MAX_PILOTOS_LABEL := "Máxima cantidad de pilotos"
  const UNASSIGNED_LABEL := "Aún sin asignar"
  const SELECT_GUIDE_LABEL := "Seleccione una guía"

  /** `d.get(key, '')`. */
  function GetOrEmpty(d: map<string, string>, key: string): string
  {
    if key in d then d[key] else ""
  }

  /** The error `d[key]` raises for a missing key. */
  datatype CleanError = KeyError(key: string)

  /** The registration form's clean hooks, over the data cleaned so far. */
  datatype RegistroForm = RegistroForm(cleanedData: map<string, string>)
  {
    /** The first name, capitalised; a missing value counts as empty. */
    function CleanFirstName(): (r: string)
      ensures "first_name" in cleanedData ==> IsCapitalizationOf(r, cleanedData["first_name"])
      ensures "first_name" !in cleanedData ==> r == ""
    {
      Capitalize(GetOrEmpty(cleanedData, "first_name"))
    }

    /** The last name, capitalised; a missing value counts as empty. */
    function CleanLastName(): (r: string)
      ensures "last_name" in cleanedData ==> IsCapitalizationOf(r, cleanedData["last_name"])
      ensures "last_name" !in cleanedData ==> r == ""
    {
      Capitalize(GetOrEmpty(cleanedData, "last_name"))
    }

    /** The username, lower-cased; a missing value counts as empty. */
    function CleanUsername(): (r: string)
      ensures "username" in cleanedData ==>
        |r| == |cleanedData["username"]| &&
        forall i :: 0 <= i < |r| ==> r[i] == LowerChar(cleanedData["username"][i])
      ensures "username" !in cleanedData ==> r == ""
      ensures forall i :: 0 <= i < |r| ==> !IsUpper(r[i])
    {
      Lower(GetOrEmpty(cleanedData, "username"))
    }
  }

  /** Cleaning a value that is already clean leaves it as it is. */
  lemma RegistroCleanIdempotent(f: RegistroForm)
    ensures RegistroForm(f.cleanedData["first_name" := f.CleanFirstName()]).CleanFirstName() == f.CleanFirstName()
    ensures RegistroForm(f.cleanedData["last_name" := f.CleanLastName()]).CleanLastName() == f.CleanLastName()
    ensures RegistroForm(f.cleanedData["username" := f.CleanUsername()]).CleanUsername() == f.CleanUsername()
  {
  }

  /** The user-edit form's clean hooks; they index the cleaned data directly. */
  datatype EditarUsuarioForm = EditarUsuarioForm(cleanedData: map<string, string>)
  {
    /** The first name, capitalised, or the lookup error when it is missing. */
    function CleanFirstName(): (r: Result<string, CleanError>)
      ensures r.Failure? <==> "first_name" !in cleanedData
      ensures r.Failure? ==> r.error == KeyError("first_name")
      ensures r.Success? ==> IsCapitalizationOf(r.value, cleanedData["first_name"])
    {
      if "first_name" in cleanedData then Success(Capitalize(cleanedData["first_name"]))
      else Failure(KeyError("first_name"))
    }

    /** The last name, capitalised, or the lookup error when it is missing. */
    function CleanLastName(): (r: Result<string, CleanError>)
      ensures r.Failure? <==> "last_name" !in cleanedData
      ensures r.Failure? ==> r.error == KeyError("last_name")
      ensures r.Success? ==> IsCapitalizationOf(r.value, cleanedData["last_name"])
    {
      if "last_name" in cleanedData then Success(Capitalize(cleanedData["last_name"]))
      else Failure(KeyError("last_name"))
    }
  }

  /** Both forms normalise a name the same way whenever the edit form finds it. */
  lemma FormsAgreeOnNames(d: map<string, string>)
    ensures "first_name" in d ==> EditarUsuarioForm(d).CleanFirstName() == Success(RegistroForm(d).CleanFirstName())
    ensures "last_name" in d ==> EditarUsuarioForm(d).CleanLastName() == Success(RegistroForm(d).CleanLastName())
  {
  }

  // ---------------------------------------------------------------------------
  // Guide form

  /** `attrs['class'] = 'form-control'`. */
  function Styled(f: Field): Field
  {
    WithAttr(f, "class", FORM_CONTROL)
  }

  /** The guide form's table after its pass: every field styled, nothing else touched. */
  function GuiaFields(base: map<string, Field>): (r: map<string, Field>)
    ensures r.Keys == base.Keys
    ensures forall n :: n in r ==> Attr(r[n], "class") == Some(FORM_CONTROL)
    ensures forall n, k :: n in r && k != "class" ==> Attr(r[n], k) == Attr(base[n], k)
    ensures forall n :: n in r ==>
      && r[n].kind == base[n].kind && r[n].widget.kind == base[n].widget.kind
      && r[n].labelText == base[n].labelText && r[n].required == base[n].required
      && r[n].choices == base[n].choices && r[n].emptyLabel == base[n].emptyLabel
  {
    map n | n in base :: Styled(base[n])
  }

  class GuiaForm {
    var names: seq<string>
    var fields: map<string, Field>

    ghost predicate Valid()
      reads this
    {
      WellFormed(names, fields)
    }

    /** Takes the table the framework built and styles every field in it. */
    constructor (baseNames: seq<string>, baseFields: map<string, Field>)
      requires WellFormed(baseNames, baseFields)
      ensures Valid()
      ensures names == baseNames && fields == GuiaFields(baseFields)
    {
      names := baseNames;
      fields := baseFields;
      new;
      var i := 0;
      while i < |names|
        invariant 0 <= i <= |names| && names == baseNames
        invariant fields.Keys == baseFields.Keys
        invariant forall n :: n in fields ==>
          fields[n] == if n in names[..i] then Styled(baseFields[n]) else baseFields[n]
      {
        var n := names[i];
        assert names[..i + 1] == names[..i] + [n];
        ElementsMembership(names, n);
        fields := fields[n := Styled(fields[n])];
        i := i + 1;
      }
      assert names[..i] == names;
      forall n | n in fields ensures n in names { ElementsMembership(names, n); }
    }
  }

  // ---------------------------------------------------------------------------
  // Pilot form

  /** The display names of a choice list. */
  function Displays(cs: seq<Choice>): (r: seq<string>)
    ensures |r| == |cs|
    ensures forall i :: 0 <= i < |cs| ==> r[i] == cs[i].display
  {
    if cs == [] then [] else [cs[0].display] + Displays(cs[1..])
  }

  /** `[(a, a) for a in sorted(listing)]`. */
  function AvatarChoices(listing: seq<string>): (r: seq<Choice>)
    ensures |r| == |listing|
    ensures forall i :: 0 <= i < |r| ==> r[i].value == Text(r[i].display)
    ensures Displays(r) == Sort(listing)
    ensures Ascending(Displays(r))
    ensures multiset(Displays(r)) == multiset(listing)
    ensures listing == [] ==> r == []
  {
    var sorted := Sort(listing);
    var r := seq(|sorted|, i requires 0 <= i < |sorted| => Choice(Text(sorted[i]), sorted[i]));
    assert Displays(r) == sorted;
    r
  }

  /** The choice list does not depend on the order the directory listing came in. */
  lemma AvatarChoicesIgnoreListingOrder(l1: seq<string>, l2: seq<string>)
    requires multiset(l1) == multiset(l2)
    ensures AvatarChoices(l1) == AvatarChoices(l2)
  {
    SortDeterminedByElements(l1, l2);
  }

  /** The pilot form's table after its pass: only the avatar choices change. */
  function PilotoFields(base: map<string, Field>, listing: seq<string>): (r: map<string, Field>)
    requires "avatar" in base
    ensures r.Keys == base.Keys
    ensures r["avatar"].choices == AvatarChoices(listing)
    ensures r["avatar"] == base["avatar"].(choices := r["avatar"].choices)
    ensures forall n :: n in base && n != "avatar" ==> r[n] == base[n]
  {
    base["avatar" := base["avatar"].(choices := AvatarChoices(listing))]
  }

  class PilotoForm {
    var names: seq<string>
    var fields: map<string, Field>

    ghost predicate Valid()
      reads this
    {
      WellFormed(names, fields)
    }

    /**
     * Takes the table the framework built and the avatar directory's listing,
     * and fills the avatar choices from the sorted listing.
     */
    constructor (baseNames: seq<string>, baseFields: map<string, Field>, listing: seq<string>)
      requires WellFormed(baseNames, baseFields)
      requires "avatar" in baseFields
      ensures Valid()
      ensures names == baseNames && fields == PilotoFields(baseFields, listing)
    {
      names := baseNames;
      var avatar := baseFields["avatar"];
      fields := baseFields["avatar" := avatar.(choices := AvatarChoices(listing))];
    }
  }

  // ---------------------------------------------------------------------------
  // Trip form

  /** Styled unless the widget is a checkbox multi-select. */
  function StyledUnlessCheckbox(f: Field): Field
  {
    if f.widget.kind == CheckboxSelectMultiple then f else Styled(f)
  }

  /** The state field that replaces `activo`. */
  function ActivoField(): Field
  {
    Field(ChoiceField, Widget(Select, map["class" := FORM_CONTROL]), Some("Estado"), true,
          [Choice(Flag(true), "Activo"), Choice(Flag(false), "Borrador")], None)
  }

  /** The empty-option label of the guide choice, by whether any guide exists. */
  function GuiaEmptyLabel(guidesExist: bool): string
  {
    if guidesExist then SELECT_GUIDE_LABEL else UNASSIGNED_LABEL
  }

  /** The overrides the trip form applies by name after styling: the id, two labels, the guide's empty label. */
  function ViajeOverride(n: string, f: Field, guidesExist: bool): Field
  {
    var withId := if n == "pilotos" then WithAttr(f, "id", "id_pilotos") else f;
    var labelled :=
      if n == "km" then withId.(labelText := Some(KM_LABEL))
      else if n == "max_pilotos" then withId.(labelText := Some(MAX_PILOTOS_LABEL))
      else withId;
    if n == "guia" && HasQueryset(f.kind) then labelled.(emptyLabel := Some(GuiaEmptyLabel(guidesExist)))
    else labelled
  }

  /** What the trip form's pass does to the field called `n`, other than replacing `activo`. */
  function ViajeField(n: string, f: Field, guidesExist: bool): Field
  {
    ViajeOverride(n, StyledUnlessCheckbox(f), guidesExist)
  }

  /** The trip form's table after its styling loop. */
  function ViajeStyled(base: map<string, Field>): (r: map<string, Field>)
    ensures r.Keys == base.Keys
    ensures forall n :: n in r && base[n].widget.kind != CheckboxSelectMultiple ==>
      Attr(r[n], "class") == Some(FORM_CONTROL)
    ensures forall n :: n in r && base[n].widget.kind == CheckboxSelectMultiple ==> r[n] == base[n]
    ensures forall n, k :: n in r && k != "class" ==> Attr(r[n], k) == Attr(base[n], k)
    ensures forall n :: n in r ==>
      && r[n].kind == base[n].kind && r[n].widget.kind == base[n].widget.kind
      && r[n].labelText == base[n].labelText && r[n].required == base[n].required
      && r[n].choices == base[n].choices && r[n].emptyLabel == base[n].emptyLabel
  {
    map n | n in base :: StyledUnlessCheckbox(base[n])
  }

  /** The trip form's table after its overrides by name. */
  function ViajeOverrides(styled: map<string, Field>, guidesExist: bool): map<string, Field>
  {
    map n | n in styled :: ViajeOverride(n, styled[n], guidesExist)
  }

  /** The four override statements, one after the other, amount to `ViajeOverrides`. */
  lemma OverridesInSteps(t0: map<string, Field>, t1: map<string, Field>, t2: map<string, Field>,
                         t3: map<string, Field>, t4: map<string, Field>, guidesExist: bool)
    requires "pilotos" in t0 && "km" in t0 && "max_pilotos" in t0
    requires t1 == t0["pilotos" := WithAttr(t0["pilotos"], "id", "id_pilotos")]
    requires t2 == t1["km" := t1["km"].(labelText := Some(KM_LABEL))]
    requires t3 == t2["max_pilotos" := t2["max_pilotos"].(labelText := Some(MAX_PILOTOS_LABEL))]
    requires t4 == if "guia" in t3 && HasQueryset(t3["guia"].kind)
                   then t3["guia" := t3["guia"].(emptyLabel := Some(GuiaEmptyLabel(guidesExist)))]
                   else t3
    ensures t4 == ViajeOverrides(t0, guidesExist)
  {
  }

  /** The trip form's pass on one field: styling, overrides, and nothing else. */
  lemma ViajeFieldSpec(n: string, f: Field, guidesExist: bool)
    // the styling pass exempts checkbox multi-selects, by widget and not by name
    ensures f.widget.kind != CheckboxSelectMultiple ==>
      Attr(ViajeField(n, f, guidesExist), "class") == Some(FORM_CONTROL)
    ensures f.widget.kind == CheckboxSelectMultiple ==>
      Attr(ViajeField(n, f, guidesExist), "class") == Attr(f, "class")
    ensures forall k :: k != "class" && !(n == "pilotos" && k == "id") ==>
      Attr(ViajeField(n, f, guidesExist), k) == Attr(f, k)
    // the overrides
    ensures n == "pilotos" ==> Attr(ViajeField(n, f, guidesExist), "id") == Some("id_pilotos")
    ensures ViajeField(n, f, guidesExist).labelText ==
      if n == "km" then Some(KM_LABEL)
      else if n == "max_pilotos" then Some(MAX_PILOTOS_LABEL)
      else f.labelText
    // the guide's empty label
    ensures ViajeField(n, f, guidesExist).emptyLabel ==
      if n == "guia" && HasQueryset(f.kind) then Some(GuiaEmptyLabel(guidesExist)) else f.emptyLabel
    // nothing else changes
    ensures ViajeField(n, f, guidesExist).kind == f.kind
    ensures ViajeField(n, f, guidesExist).widget.kind == f.widget.kind
    ensures ViajeField(n, f, guidesExist).required == f.required
    ensures ViajeField(n, f, guidesExist).choices == f.choices
  {
  }

  /** The trip form's table after its pass. */
  function ViajeFields(base: map<string, Field>, guidesExist: bool): (r: map<string, Field>)
    ensures r.Keys == base.Keys + {"activo"}
    ensures forall n :: n in base && n != "activo" ==> r[n] == ViajeField(n, base[n], guidesExist)
    // the replaced state field, whatever the pass did to the original one
    ensures r["activo"].kind == ChoiceField && r["activo"].widget.kind == Select
    ensures r["activo"].choices == [Choice(Flag(true), "Activo"), Choice(Flag(false), "Borrador")]
    ensures r["activo"].labelText == Some("Estado")
    ensures r["activo"].widget.attrs == map["class" := FORM_CONTROL]
  {
    (map n | n in base :: ViajeField(n, base[n], guidesExist))["activo" := ActivoField()]
  }

  /** After the pass, every field whose widget is not a checkbox multi-select carries the class. */
  lemma ViajeFieldsStyled(base: map<string, Field>, guidesExist: bool)
    ensures forall n ::
      (n in ViajeFields(base, guidesExist) &&
       ViajeFields(base, guidesExist)[n].widget.kind != CheckboxSelectMultiple) ==>
      Attr(ViajeFields(base, guidesExist)[n], "class") == Some(FORM_CONTROL)
  {
  }

  /** Replacing `activo` in a table that agrees field by field with the pass completes the pass. */
  lemma ViajeFieldsFromOverrides(base: map<string, Field>, overridden: map<string, Field>, guidesExist: bool)
    requires overridden.Keys == base.Keys
    requires forall n :: n in base ==> overridden[n] == ViajeField(n, base[n], guidesExist)
    ensures overridden["activo" := ActivoField()] == ViajeFields(base, guidesExist)
  {
  }

  /** The field order after the pass: `activo` keeps its place, or is appended when new. */
  function ViajeNames(baseNames: seq<string>): (r: seq<string>)
    ensures forall n :: n in r <==> n in baseNames || n == "activo"
    ensures |baseNames| <= |r| && r[..|baseNames|] == baseNames
    ensures |r| == |baseNames| + (if "activo" in baseNames then 0 else 1)
    ensures "activo" in baseNames ==> r == baseNames
    ensures Distinct(baseNames) ==> Distinct(r)
  {
    if "activo" in baseNames then baseNames else baseNames + ["activo"]
  }

  /** On the framework's default widget for a many-to-many field, `pilotos` is styled too. */
  lemma DefaultPilotosWidgetIsStyled(base: map<string, Field>, guidesExist: bool)
    requires "pilotos" in base
    requires base["pilotos"].widget.kind == SelectMultiple
    ensures Attr(ViajeFields(base, guidesExist)["pilotos"], "class") == Some(FORM_CONTROL)
    ensures Attr(ViajeFields(base, guidesExist)["pilotos"], "id") == Some("id_pilotos")
  {
  }

  class ViajeForm {
    var names: seq<string>
    var fields: map<string, Field>

    ghost predicate Valid()
      reads this
    {
      WellFormed(names, fields)
    }

    /** The styling loop: `class` on every field whose widget is not a checkbox multi-select. */
    method StyleUnlessCheckbox()
      requires Valid()
      modifies this
      ensures Valid() && names == old(names)
      ensures fields == ViajeStyled(old(fields))
    {
      var i := 0;
      while i < |names|
        invariant 0 <= i <= |names| && names == old(names)
        invariant fields.Keys == old(fields).Keys
        invariant forall n :: n in fields ==>
          fields[n] == if n in names[..i] then StyledUnlessCheckbox(old(fields)[n]) else old(fields)[n]
      {
        var n := names[i];
        assert names[..i + 1] == names[..i] + [n];
        ElementsMembership(names, n);
        if fields[n].widget.kind != CheckboxSelectMultiple {
          fields := fields[n := Styled(fields[n])];
        }
        i := i + 1;
      }
      assert names[..i] == names;
      forall n | n in fields ensures n in names { ElementsMembership(names, n); }
    }

    /** The overrides by name: the `pilotos` id, the two labels, and the guide's empty label. */
    method ApplyOverrides(guidesExist: bool)
      requires Valid()
      requires "pilotos" in fields && "km" in fields && "max_pilotos" in fields
      modifies this
      ensures Valid() && names == old(names)
      ensures fields == ViajeOverrides(old(fields), guidesExist)
    {
      ghost var t0 := fields;
      fields := fields["pilotos" := WithAttr(fields["pilotos"], "id", "id_pilotos")];
      ghost var t1 := fields;
      fields := fields["km" := fields["km"].(labelText := Some(KM_LABEL))];
      ghost var t2 := fields;
      fields := fields["max_pilotos" := fields["max_pilotos"].(labelText := Some(MAX_PILOTOS_LABEL))];
      ghost var t3 := fields;
      if "guia" in fields && HasQueryset(fields["guia"].kind) {
        if !guidesExist {
          fields := fields["guia" := fields["guia"].(emptyLabel := Some(UNASSIGNED_LABEL))];
        } else {
          fields := fields["guia" := fields["guia"].(emptyLabel := Some(SELECT_GUIDE_LABEL))];
        }
      }
      OverridesInSteps(t0, t1, t2, t3, fields, guidesExist);
    }

    /** `self.fields['activo'] = ...`: the state field replaces any earlier `activo`, or is added last. */
    method ReplaceActivo()
      requires Valid()
      modifies this
      ensures Valid()
      ensures names == ViajeNames(old(names))
      ensures fields == old(fields)["activo" := ActivoField()]
    {
      ElementsMembership(names, "activo");
      PutKeepsWellFormed(names, fields, "activo", ActivoField());
      fields := fields["activo" := ActivoField()];
      if "activo" !in names {
        names := names + ["activo"];
      }
    }

    /**
     * Takes the table the framework built and whether any guide exists, styles
     * every field but checkbox multi-selects, applies the overrides and replaces
     * the state field.
     */
    constructor (baseNames: seq<string>, baseFields: map<string, Field>, guidesExist: bool)
      requires WellFormed(baseNames, baseFields)
      requires "pilotos" in baseFields && "km" in baseFields && "max_pilotos" in baseFields
      ensures Valid()
      ensures names == ViajeNames(baseNames) && fields == ViajeFields(baseFields, guidesExist)
    {
      names := baseNames;
      fields := baseFields;
      new;
      StyleUnlessCheckbox();
      ApplyOverrides(guidesExist);
      ViajeFieldsFromOverrides(baseFields, fields, guidesExist);
      ReplaceActivo();
    }
  }
}
