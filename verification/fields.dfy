/**
 * The field table of a form, as the form layer sees it after the framework has
 * built it: each field has a kind, a widget with an attribute map, a label, a
 * required flag, an ordered choice list and, for model-backed choice fields, the
 * label of the empty option.
 */
module Fields {
  import opened Wrappers

  datatype FieldKind =
    | CharField | EmailField | IntegerField | DateField | BooleanField | ImageField
    | ChoiceField | ModelChoiceField | ModelMultipleChoiceField

  datatype WidgetKind =
    | TextInput | EmailInput | NumberInput | DateInput | Textarea | CheckboxInput
    | ClearableFileInput | Select | RadioSelect | SelectMultiple | CheckboxSelectMultiple

  datatype Widget = Widget(kind: WidgetKind, attrs: map<string, string>)

  /** A choice's stored value: the avatar list stores names, the state choice stores booleans. */
  datatype ChoiceValue = Text(name: string) | Flag(flag: bool)

  datatype Choice = Choice(value: ChoiceValue, display: string)

  datatype Field = Field(
    kind: FieldKind,
    widget: Widget,
    labelText: Option<string>,
    required: bool,
    choices: seq<Choice>,
    emptyLabel: Option<string>)

  /** Only the model-backed choice fields carry a queryset. */
  predicate HasQueryset(k: FieldKind)
  {
    k == ModelChoiceField || k == ModelMultipleChoiceField
  }

  /** The widget attribute `key` of `f`, if set. */
  function Attr(f: Field, key: string): Option<string>
  {
    if key in f.widget.attrs then Some(f.widget.attrs[key]) else None
  }

  /** `f.widget.attrs[key] = value`. */
  function WithAttr(f: Field, key: string, value: string): (g: Field)
    ensures Attr(g, key) == Some(value)
    ensures forall k :: k != key ==> Attr(g, k) == Attr(f, k)
    ensures g.kind == f.kind && g.widget.kind == f.widget.kind && g.labelText == f.labelText
    ensures g.required == f.required && g.choices == f.choices && g.emptyLabel == f.emptyLabel
  {
    f.(widget := f.widget.(attrs := f.widget.attrs[key := value]))
  }

  /** The set of names a sequence lists. */
  function Elements(names: seq<string>): set<string>
  {
    if names == [] then {} else {names[0]} + Elements(names[1..])
  }

  lemma {:induction false} ElementsMembership(names: seq<string>, x: string)
    ensures x in Elements(names) <==> x in names
  {
    if names != [] {
      ElementsMembership(names[1..], x);
      assert names == [names[0]] + names[1..];
    }
  }

  lemma {:induction false} ElementsAppend(names: seq<string>, x: string)
    ensures Elements(names + [x]) == Elements(names) + {x}
  {
    if names != [] {
      assert (names + [x])[1..] == names[1..] + [x];
      ElementsAppend(names[1..], x);
    }
  }

  /** No name appears twice. */
  predicate Distinct(names: seq<string>)
  {
    forall i, j :: 0 <= i < j < |names| ==> names[i] != names[j]
  }

  /**
   * The ordered table `self.fields`: the names in insertion order, each once,
   * and exactly the names that the map holds.
   */
  predicate WellFormed(names: seq<string>, fields: map<string, Field>)
  {
    Distinct(names) && fields.Keys == Elements(names)
  }

  /** `fields[key] = f` on an ordered table: an existing key keeps its place, a new one goes last. */
  lemma PutKeepsWellFormed(names: seq<string>, fields: map<string, Field>, key: string, f: Field)
    requires WellFormed(names, fields)
    ensures WellFormed(if key in fields then names else names + [key], fields[key := f])
  {
    if key !in fields {
      ElementsMembership(names, key);
      ElementsAppend(names, key);
      var names' := names + [key];
      forall i, j | 0 <= i < j < |names'| ensures names'[i] != names'[j] {
        if j == |names| {
          assert names[i] in names;
        }
      }
    }
  }
}
