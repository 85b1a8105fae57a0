/**
 * The "strain with one plasmid" entry form: which required field the form
 * reports as missing, and the text of a field's label.
 */
module StrainWithPlasmidForm {
  import opened Wrappers

  /** The four fields the form checks. */
  datatype Field = StrainNumber | PrincipalInvestigator | Creator | PlasmidName

  /** The texts typed into the form's boxes that bear on validation. */
  datatype FormInput = FormInput(
    strainNumber: string,
    principalInvestigator: string,
    creator: string,
    plasmidName: string,
    strainSummary: string,
    plasmidSummary: string)

  /** The text of one checked field. */
  function Text(f: FormInput, field: Field): string {
    match field
    case StrainNumber => f.strainNumber
    case PrincipalInvestigator => f.principalInvestigator
    case Creator => f.creator
    case PlasmidName => f.plasmidName
  }

  /** The order in which the fields are checked: a smaller rank is checked first. */
  function Rank(field: Field): nat {
    match field
    case StrainNumber => 0
    case PrincipalInvestigator => 1
    case Creator => 2
    case PlasmidName => 3
  }

  /**
   * `validateForm`: the first empty field in the order strain number,
   * principal investigator, creator, plasmid name; none when all four are
   * filled in.
   */
  function ValidateForm(f: FormInput): (r: Option<Field>)
    ensures r.Some? ==> Text(f, r.value) == ""
    ensures r.Some? ==> forall g: Field | Rank(g) < Rank(r.value) :: Text(f, g) != ""
    ensures r.None? <==> forall g: Field :: Text(f, g) != ""
  {
    if f.strainNumber == "" then Some(StrainNumber)
    else if f.principalInvestigator == "" then Some(PrincipalInvestigator)
    else if f.creator == "" then Some(Creator)
    else if f.plasmidName == "" then Some(PlasmidName)
    else None
  }

  /** The reported field is determined by the fields alone: the first empty one wins. */
  lemma ValidateFormFirstEmpty(f: FormInput, field: Field)
    requires Text(f, field) == ""
    requires forall g: Field | Rank(g) < Rank(field) :: Text(f, g) != ""
    ensures ValidateForm(f) == Some(field)
  {
  }

  /** The summaries are labelled required but never checked. */
  lemma SummariesNotChecked(f: FormInput, strainSummary: string, plasmidSummary: string)
    ensures ValidateForm(f.(strainSummary := strainSummary, plasmidSummary := plasmidSummary)) == ValidateForm(f)
  {
  }

  /** What `setLabel` appends to a required label. */
  const RequiredMarker: string := " <span class=\"required\">*</span>"

  /**
   * `setLabel`'s text: the label, followed by the marker when the field is
   * required. The label always comes first, and the text is the bare label
   * exactly when the field is not required.
   */
  function LabelText(required: bool, caption: string): (t: string)
    ensures |caption| <= |t| && t[..|caption|] == caption
    ensures t == caption <==> !required
  {
    if required then caption + RequiredMarker else caption
  }

  /** A label text ends with the required marker. */
  predicate MarkedRequired(text: string) {
    |text| >= |RequiredMarker| && text[|text| - |RequiredMarker|..] == RequiredMarker
  }

  /** The label a text was made from: the text without a trailing required marker. */
  function StripRequired(text: string): string {
    if MarkedRequired(text) then text[..|text| - |RequiredMarker|] else text
  }

  /**
   * For a label that does not itself end with the marker, the label text is
   * marked exactly when the field is required, and stripping the marker gives
   * the label back.
   */
  lemma LabelTextRoundTrip(required: bool, caption: string)
    requires !MarkedRequired(caption)
    ensures MarkedRequired(LabelText(required, caption)) == required
    ensures StripRequired(LabelText(required, caption)) == caption
  {
    if required {
      var text := caption + RequiredMarker;
      assert text[|text| - |RequiredMarker|..] == RequiredMarker;
      assert text[..|text| - |RequiredMarker|] == caption;
    }
  }

  /** The labels the form creates through `setLabel` or as required HTML, with their required flags. */
  const FormLabels: seq<(string, bool)> := [
    ("Strain Number", true), ("Principal Investigator", true), ("Creator", true),
    ("Funding Source", false), ("Creator's Email", false), ("Bio Safety Level", false),
    ("Status", false), ("Plasmid Name", true), ("Alias", false), ("Backbone", false),
    ("Circular", false), ("Summary", true)]

  /** The label of each checked field. */
  function FieldLabel(field: Field): string {
    match field
    case StrainNumber => "Strain Number"
    case PrincipalInvestigator => "Principal Investigator"
    case Creator => "Creator"
    case PlasmidName => "Plasmid Name"
  }

  /**
   * Every checked field carries a required label, but the converse fails:
   * "Summary" is labelled required and no checked field has that label.
   */
  lemma CheckedFieldsAreLabelledRequired(field: Field)
    ensures (FieldLabel(field), true) in FormLabels
    ensures ("Summary", true) in FormLabels && FieldLabel(field) != "Summary"
  {
    match field
    case StrainNumber => assert FormLabels[0] == (FieldLabel(field), true);
    case PrincipalInvestigator => assert FormLabels[1] == (FieldLabel(field), true);
    case Creator => assert FormLabels[2] == (FieldLabel(field), true);
    case PlasmidName => assert FormLabels[7] == (FieldLabel(field), true);
  }
}
