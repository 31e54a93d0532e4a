/** The "add subscription" form: its fields, its change handlers, and the
    service-name autocomplete. */
module AddForm {
  import Text
  import SubscriptionModel

  /** The category choices of the form's category select. */
  const Categories: seq<string> := [
    "Movies & TV", "Gaming", "Music & Audio", "Productivity & Utilities",
    "Education", "Lifestyle & Health", "Finance", "Other"]

  /** The form state: every field is the text of its input. */
  datatype Form = Form(
    name: string,
    price: string,
    nextPaymentDate: string,
    color: string,
    category: string,
    billingCycle: string,
    description: string,
    notes: string,
    paymentMethod: string)

  /** The `name` attribute of an input, naming one form field. */
  datatype Field =
    | Name | Price | NextPaymentDate | Color | Category
    | BillingCycle | Description | Notes | PaymentMethod

  function Get(f: Form, field: Field): string {
    match field
    case Name => f.name
    case Price => f.price
    case NextPaymentDate => f.nextPaymentDate
    case Color => f.color
    case Category => f.category
    case BillingCycle => f.billingCycle
    case Description => f.description
    case Notes => f.notes
    case PaymentMethod => f.paymentMethod
  }

  /** `{ ...prev, [field]: value }`: the named field takes the value and every
      other field keeps its text. */
  function Set(f: Form, field: Field, value: string): (r: Form)
    ensures Get(r, field) == value
    ensures forall g :: g != field ==> Get(r, g) == Get(f, g)
  {
    match field
    case Name => f.(name := value)
    case Price => f.(price := value)
    case NextPaymentDate => f.(nextPaymentDate := value)
    case Color => f.(color := value)
    case Category => f.(category := value)
    case BillingCycle => f.(billingCycle := value)
    case Description => f.(description := value)
    case Notes => f.(notes := value)
    case PaymentMethod => f.(paymentMethod := value)
  }

  /** Two forms that agree on every field are the same form. */
  lemma FormExtensional(f: Form, g: Form)
    requires forall field :: Get(f, field) == Get(g, field)
    ensures f == g
  {
    assert Get(f, Name) == Get(g, Name) && Get(f, Price) == Get(g, Price);
    assert Get(f, NextPaymentDate) == Get(g, NextPaymentDate) && Get(f, Color) == Get(g, Color);
    assert Get(f, Category) == Get(g, Category) && Get(f, BillingCycle) == Get(g, BillingCycle);
    assert Get(f, Description) == Get(g, Description) && Get(f, Notes) == Get(g, Notes);
    assert Get(f, PaymentMethod) == Get(g, PaymentMethod);
  }

  /** Writing back a field's own text changes nothing, and of two writes to
      the same field only the last one is seen. */
  lemma SetLaws(f: Form, field: Field, v: string, w: string)
    ensures Set(f, field, Get(f, field)) == f
    ensures Set(Set(f, field, v), field, w) == Set(f, field, w)
  {
    FormExtensional(Set(f, field, Get(f, field)), f);
    FormExtensional(Set(Set(f, field, v), field, w), Set(f, field, w));
  }

  /** `initialState`. */
  const InitialForm: Form := Form("", "", "", SubscriptionModel.DefaultColor, "", "monthly", "", "", "")

  /** The initial form: billing cycle "monthly", the default colour, and
      every other field empty. */
  lemma InitialFormFields(g: Field)
    ensures Get(InitialForm, g) ==
      if g == BillingCycle then "monthly"
      else if g == Color then "#6366f1"
      else ""
  {
  }

  /** One autocomplete entry. */
  datatype Suggestion = Suggestion(name: string, category: string)

  /** `serviceSuggestions`, in list order. */
  const Catalog: seq<Suggestion> := [
    Suggestion("YouTube Premium", "Music & Audio"),
    Suggestion("Netflix", "Movies & TV"),
    Suggestion("Spotify", "Music & Audio"),
    Suggestion("Amazon Prime", "Movies & TV"),
    Suggestion("Apple Music", "Music & Audio"),
    Suggestion("Google One", "Productivity & Utilities"),
    Suggestion("Twitch", "Gaming"),
    Suggestion("Disney+", "Movies & TV"),
    Suggestion("Coursera", "Education"),
    Suggestion("Notion", "Productivity & Utilities"),
    Suggestion("Starbucks", "Lifestyle & Health")]

  /** Every catalogue entry files its service under one of the form's
      categories, so choosing a suggestion selects an option the category
      select offers. */
  lemma CatalogCategoriesOffered()
    ensures forall i :: 0 <= i < |Catalog| ==> Catalog[i].category in Categories
  {
  }

  /** Case-insensitive substring match of a suggestion against the typed text. */
  predicate Matches(s: Suggestion, input: string) {
    Text.Includes(Text.Lower(s.name), Text.Lower(input))
  }

  /** `list.filter(s => s.name.toLowerCase().includes(input.toLowerCase()))`. */
  function Filter(list: seq<Suggestion>, input: string): (r: seq<Suggestion>)
    ensures |r| <= |list|
    ensures forall s :: s in r <==> s in list && Matches(s, input)
  {
    if |list| == 0 then []
    else (if Matches(list[0], input) then [list[0]] else []) + Filter(list[1..], input)
  }

  /** The filter distributes over concatenation: what it keeps from an earlier
      part of the list comes before what it keeps from a later part, so list
      order is preserved. */
  lemma {:induction false} FilterAppend(a: seq<Suggestion>, b: seq<Suggestion>, input: string)
    ensures Filter(a + b, input) == Filter(a, input) + Filter(b, input)
  {
    if |a| == 0 {
      assert a + b == b;
    } else {
      assert (a + b)[1..] == a[1..] + b;
      assert (a + b)[0] == a[0];
      FilterAppend(a[1..], b, input);
    }
  }

  /** The filter keeps a list whose every entry matches and drops one whose
      every entry does not. */
  lemma {:induction false} FilterAllOrNothing(list: seq<Suggestion>, input: string)
    ensures (forall i :: 0 <= i < |list| ==> Matches(list[i], input)) ==> Filter(list, input) == list
    ensures (forall i :: 0 <= i < |list| ==> !Matches(list[i], input)) ==> Filter(list, input) == []
  {
    if |list| > 0 {
      FilterAllOrNothing(list[1..], input);
      assert [list[0]] + list[1..] == list;
    }
  }

  /** `filteredSuggestions`: nothing for an empty input, otherwise the
      catalogue entries whose lower-cased name contains the lower-cased input. */
  function Suggestions(input: string): (r: seq<Suggestion>)
    ensures input == "" ==> r == []
    ensures input != "" ==> forall s :: s in r <==> s in Catalog && Matches(s, input)
  {
    if |input| > 0 then Filter(Catalog, input) else []
  }

  /** The editor state the handlers change: the form, the text of the name
      input, and whether the suggestion list is open. */
  datatype Editor = Editor(form: Form, nameInput: string, showSuggestions: bool)

  const InitialEditor: Editor := Editor(InitialForm, "", false)

  /** `handleChange`: the named field takes the input's value. */
  function HandleChange(e: Editor, field: Field, value: string): (r: Editor)
    ensures Get(r.form, field) == value
    ensures forall g :: g != field ==> Get(r.form, g) == Get(e.form, g)
    ensures r.nameInput == e.nameInput && r.showSuggestions == e.showSuggestions
  {
    e.(form := Set(e.form, field, value))
  }

  /** `handleColorChange`: only the colour changes. */
  function HandleColorChange(e: Editor, color: string): (r: Editor)
    ensures r.form.color == color
    ensures forall g :: g != Color ==> Get(r.form, g) == Get(e.form, g)
    ensures r.nameInput == e.nameInput && r.showSuggestions == e.showSuggestions
  {
    e.(form := Set(e.form, Color, color))
  }

  /** `handleNameChange`: the input text and the form's name become the typed
      value, and the suggestion list opens. */
  function HandleNameChange(e: Editor, value: string): (r: Editor)
    ensures r.nameInput == value && r.form.name == value && r.showSuggestions
    ensures forall g :: g != Name ==> Get(r.form, g) == Get(e.form, g)
  {
    Editor(Set(e.form, Name, value), value, true)
  }

  /** Focusing the name input opens the suggestion list. */
  function FocusName(e: Editor): (r: Editor)
    ensures r.showSuggestions && r.form == e.form && r.nameInput == e.nameInput
  {
    e.(showSuggestions := true)
  }

  /** `handleSuggestionClick`: the form takes the entry's name and category,
      the input shows the name, and the list closes. */
  function HandleSuggestionClick(e: Editor, s: Suggestion): (r: Editor)
    ensures r.form.name == s.name && r.form.category == s.category
    ensures forall g :: g != Name && g != Category ==> Get(r.form, g) == Get(e.form, g)
    ensures r.nameInput == s.name && !r.showSuggestions
  {
    Editor(Set(Set(e.form, Name, s.name), Category, s.category), s.name, false)
  }

  /** The dropdown: shown only while open and non-empty. */
  function VisibleSuggestions(e: Editor): (r: seq<Suggestion>)
    ensures |r| > 0 ==> e.showSuggestions && e.nameInput != ""
    ensures e.showSuggestions ==> r == Suggestions(e.nameInput)
  {
    if e.showSuggestions then Suggestions(e.nameInput) else []
  }

  /** Typing the input keeps the form's name and the text that filters the
      suggestions in step; picking a suggestion keeps them in step as well,
      and closes the dropdown. */
  lemma NameInSync(e: Editor, value: string, s: Suggestion)
    requires e.form.name == e.nameInput
    ensures HandleNameChange(e, value).form.name == HandleNameChange(e, value).nameInput
    ensures HandleSuggestionClick(e, s).form.name == HandleSuggestionClick(e, s).nameInput
    ensures VisibleSuggestions(HandleSuggestionClick(e, s)) == []
    ensures forall f :: f != Name ==> HandleChange(e, f, value).form.name == HandleChange(e, f, value).nameInput
  {
  }

  /** A typed fragment of a catalogue name, in any letter case, offers that
      entry: "NET" offers Netflix. */
  lemma {:induction false} SuggestionExample()
    ensures Suggestion("Netflix", "Movies & TV") in Suggestions("NET")
  {
    var n := Suggestion("Netflix", "Movies & TV");
    assert Catalog[1] == n;
    assert Text.Lower("NET") == "net";
    assert Text.Lower("Netflix") == "netflix";
    assert Text.OccursAt("netflix", "net", 0);
    Text.IncludesAt("netflix", "net");
    assert Matches(n, "NET");
  }
}
