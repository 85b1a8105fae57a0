/**
 * A registry entry (a strain, plasmid, part or Arabidopsis seed record): its
 * identity, the collections it owns, the selectors over those collections, and
 * its equality and hash code.
 */
module EntryModel {
  import opened Wrappers
  import opened JavaLang
  import opened Collections

  /** An alias of the entry. */
  datatype Name = Name(name: string)

  /** An identifier of the entry, local to some registry instance or external. */
  datatype PartNumber = PartNumber(partNumber: string)

  /** A link to something outside this registry instance. */
  datatype Link = Link(link: string)

  /** A selection marker (for instance an antibiotic resistance). */
  datatype SelectionMarker = SelectionMarker(name: string)

  /** A funding source; both of its text fields may be null. */
  datatype FundingSource = FundingSource(fundingSource: Option<string>, principalInvestigator: Option<string>)

  /** The association of the entry with one funding source. */
  datatype EntryFundingSource = EntryFundingSource(fundingSource: FundingSource)

  /** The runtime class of an entry object: the base class or one of the record kinds. */
  datatype EntryClass = BaseEntry | Strain | Plasmid | Part | ArabidopsisSeed

  /** A key/value annotation; it points back at the entry that owns it. */
  class Parameter {
    var entry: Entry?
    const key: string
    const value: string

    constructor (key: string, value: string)
      ensures this.key == key && this.value == value && entry == null
    {
      this.key := key;
      this.value := value;
      entry := null;
    }
  }

  class Entry {
    /** Storage-assigned numeric id. */
    var id: Long
    /** The globally unique record id (null until assigned). */
    var recordId: Option<string>
    /** The record type name (null until assigned). */
    var recordType: Option<string>
    /** Which class the object was created as; `equals` compares it. */
    const runtimeClass: EntryClass

    // The owned collections. All but the selection markers are final fields.
    const names: OrderedSet<Name>
    const partNumbers: OrderedSet<PartNumber>
    var selectionMarkers: OrderedSet<SelectionMarker>
    const links: OrderedSet<Link>
    const entryFundingSources: OrderedSet<EntryFundingSource>
    const parameters: ArrayList<Parameter>

    /** The owned sets have no duplicates. */
    ghost predicate Valid()
      reads this, names, partNumbers, selectionMarkers, links, entryFundingSources
    {
      names.Valid() && partNumbers.Valid() && selectionMarkers.Valid() &&
      links.Valid() && entryFundingSources.Valid()
    }

    /** A new entry object of the given class with empty collections and no ids. */
    constructor (runtimeClass: EntryClass)
      ensures Valid()
      ensures this.runtimeClass == runtimeClass && id == 0
      ensures recordId == None && recordType == None
      ensures fresh(names) && fresh(partNumbers) && fresh(selectionMarkers)
      ensures fresh(links) && fresh(entryFundingSources) && fresh(parameters)
      ensures names.elems == [] && partNumbers.elems == [] && selectionMarkers.elems == []
      ensures links.elems == [] && entryFundingSources.elems == [] && parameters.elems == []
    {
      this.runtimeClass := runtimeClass;
      id := 0;
      recordId := None;
      recordType := None;
      names := new OrderedSet();
      partNumbers := new OrderedSet();
      selectionMarkers := new OrderedSet();
      links := new OrderedSet();
      entryFundingSources := new OrderedSet();
      parameters := new ArrayList();
    }

    /** `setNames`: replace the names in place (null clears, own set is a no-op). */
    method SetNames(input: OrderedSet?<Name>)
      requires Valid()
      requires input != null ==> input.Valid()
      modifies names
      ensures Valid()
      ensures input == null ==> names.elems == []
      ensures input == names ==> names.elems == old(names.elems)
      ensures input != null && input != names ==> names.elems == old(input.elems)
    {
      names.ReplaceWith(input);
    }

    /** `setPartNumbers`: replace the part numbers in place. */
    method SetPartNumbers(input: OrderedSet?<PartNumber>)
      requires Valid()
      requires input != null ==> input.Valid()
      modifies partNumbers
      ensures Valid()
      ensures input == null ==> partNumbers.elems == []
      ensures input == partNumbers ==> partNumbers.elems == old(partNumbers.elems)
      ensures input != null && input != partNumbers ==> partNumbers.elems == old(input.elems)
    {
      partNumbers.ReplaceWith(input);
    }

    /** `setLinks`: replace the links in place. */
    method SetLinks(input: OrderedSet?<Link>)
      requires Valid()
      requires input != null ==> input.Valid()
      modifies links
      ensures Valid()
      ensures input == null ==> links.elems == []
      ensures input == links ==> links.elems == old(links.elems)
      ensures input != null && input != links ==> links.elems == old(input.elems)
    {
      links.ReplaceWith(input);
    }

    /** `setEntryFundingSources`: replace the funding sources in place. */
    method SetEntryFundingSources(input: OrderedSet?<EntryFundingSource>)
      requires Valid()
      requires input != null ==> input.Valid()
      modifies entryFundingSources
      ensures Valid()
      ensures input == null ==> entryFundingSources.elems == []
      ensures input == entryFundingSources ==> entryFundingSources.elems == old(entryFundingSources.elems)
      ensures input != null && input != entryFundingSources ==> entryFundingSources.elems == old(input.elems)
    {
      entryFundingSources.ReplaceWith(input);
    }

    /**
     * `setSelectionMarkers`: the field is not final, but the setter never
     * re-points it: its own set is assigned back to it, any other set is
     * copied in after clearing.
     */
    method SetSelectionMarkers(input: OrderedSet?<SelectionMarker>)
      requires Valid()
      requires input != null ==> input.Valid()
      modifies this`selectionMarkers, selectionMarkers
      ensures Valid()
      ensures selectionMarkers == old(selectionMarkers)
      ensures input == null ==> selectionMarkers.elems == []
      ensures input == selectionMarkers ==> selectionMarkers.elems == old(selectionMarkers.elems)
      ensures input != null && input != selectionMarkers ==> selectionMarkers.elems == old(input.elems)
    {
      if input == null {
        selectionMarkers.Clear();
        return;
      }
      if input == selectionMarkers {
        selectionMarkers := input;
      } else {
        selectionMarkers.Clear();
        selectionMarkers.AddAll(input.elems);
        InsertAllFresh([], input.elems);
        assert [] + input.elems == input.elems;
      }
    }

    /**
     * `setParameters`: for a list other than its own, first points every given
     * parameter back at this entry, then replaces the list's contents with the
     * given ones, in order. Null clears; its own list changes nothing.
     */
    method SetParameters(input: ArrayList?<Parameter>)
      modifies parameters, if input == null then [] else input.elems
      ensures input == null ==> parameters.elems == []
      ensures input == parameters ==> parameters.elems == old(parameters.elems)
      ensures input == parameters ==> forall p | p in old(parameters.elems) :: p.entry == old(p.entry)
      ensures input != null && input != parameters ==>
                parameters.elems == old(input.elems) &&
                forall p | p in old(input.elems) :: p.entry == this
    {
      if input == null {
        parameters.Clear();
        return;
      }
      if input != parameters {
        for i := 0 to |input.elems|
          invariant parameters.elems == old(parameters.elems)
          invariant forall j | 0 <= j < i :: input.elems[j].entry == this
        {
          input.elems[i].entry := this;
        }
        parameters.Clear();
        parameters.AddAll(input.elems);
      }
    }

    /** `getOneName`: the first name in iteration order, or null when there is none. */
    function GetOneName(): (r: Option<Name>)
      reads this, names
      ensures r == None <==> names.elems == []
      ensures r.Some? ==> r.value in names.elems && names.elems[0] == r.value
    {
      if |names.elems| > 0 then Some(names.elems[0]) else None
    }

    /**
     * `getOnePartNumber`, with the configured local prefix as a parameter:
     * null when there are no part numbers; otherwise the LAST part number that
     * contains the prefix (the loop keeps overwriting its result), or the first
     * part number when none contains it.
     */
    method GetOnePartNumber(prefix: string) returns (r: Option<PartNumber>)
      ensures r == None <==> partNumbers.elems == []
      ensures (exists i | 0 <= i < |partNumbers.elems| :: Contains(partNumbers.elems[i].partNumber, prefix)) ==>
                exists k | 0 <= k < |partNumbers.elems| ::
                  r == Some(partNumbers.elems[k]) &&
                  Contains(partNumbers.elems[k].partNumber, prefix) &&
                  forall j | k < j < |partNumbers.elems| :: !Contains(partNumbers.elems[j].partNumber, prefix)
      ensures partNumbers.elems != [] &&
              (forall i | 0 <= i < |partNumbers.elems| :: !Contains(partNumbers.elems[i].partNumber, prefix)) ==>
                r == Some(partNumbers.elems[0])
    {
      var ps := partNumbers.elems;
      r := None;
      if |ps| > 0 {
        ghost var k := -1;
        for i := 0 to |ps|
          invariant -1 <= k < i
          invariant k == -1 <==> r == None
          invariant k == -1 ==> forall j | 0 <= j < i :: !Contains(ps[j].partNumber, prefix)
          invariant k >= 0 ==> r == Some(ps[k]) && Contains(ps[k].partNumber, prefix)
          invariant forall j | k < j < i :: !Contains(ps[j].partNumber, prefix)
        {
          if Contains(ps[i].partNumber, prefix) {
            r := Some(ps[i]);
            k := i;
          }
        }
        if r == None {
          r := Some(ps[0]);
        }
      }
    }

    /**
     * `principalInvestigatorToString`: the principal investigator of the LAST
     * funding source in iteration order; the empty string when there is no
     * funding source or that investigator is null.
     */
    method PrincipalInvestigatorToString() returns (r: string)
      ensures entryFundingSources.elems == [] ==> r == ""
      ensures entryFundingSources.elems != [] ==>
                r == Last(entryFundingSources.elems).fundingSource.principalInvestigator.GetOr("")
    {
      var sources := entryFundingSources.elems;
      var investigator: Option<string> := Some("");
      for i := 0 to |sources|
        invariant i == 0 ==> investigator == Some("")
        invariant i > 0 ==> investigator == sources[i - 1].fundingSource.principalInvestigator
      {
        investigator := sources[i].fundingSource.principalInvestigator;
      }
      r := investigator.GetOr("");
    }

    /**
     * `fundingSourceToString`: the funding-source text of the LAST funding
     * source; the empty string when there is none or that text is null.
     */
    method FundingSourceToString() returns (r: string)
      ensures entryFundingSources.elems == [] ==> r == ""
      ensures entryFundingSources.elems != [] ==>
                r == Last(entryFundingSources.elems).fundingSource.fundingSource.GetOr("")
    {
      var sources := entryFundingSources.elems;
      var text: Option<string> := Some("");
      for i := 0 to |sources|
        invariant i == 0 ==> text == Some("")
        invariant i > 0 ==> text == sources[i - 1].fundingSource.fundingSource
      {
        text := sources[i].fundingSource.fundingSource;
      }
      r := text.GetOr("");
    }

    /**
     * `equals` against another entry (null is never equal): same runtime
     * class, equal record ids, equal record types and equal numeric ids. It is
     * reflexive and consistent with `hashCode`.
     */
    function Equals(other: Entry?): (r: bool)
      reads this, other
      ensures other == this ==> r
      ensures r ==> other != null && HashCode() == other.HashCode()
    {
      other != null &&
      runtimeClass == other.runtimeClass &&
      recordId == other.recordId &&
      recordType == other.recordType &&
      id == other.id
    }

    /**
     * `hashCode`: Guava's `Objects.hashCode(id, recordId)`, so an entry with id
     * 0 and no record id, as a new entry is, hashes to 31 * 31 = 961.
     */
    function HashCode(): (h: IntBits)
      reads this
      ensures id == 0 && recordId == None ==> h == 961
    {
      ObjectsHash(LongHash(id), if recordId.Some? then StringHash(recordId.value) else 0)
    }
  }

  /** The last element of a non-empty sequence. */
  function Last<T>(s: seq<T>): T
    requires s != []
  {
    s[|s| - 1]
  }

  /**
   * `equals` is symmetric and transitive on entries; with its reflexivity,
   * stated on `Entry.Equals`, it is an equivalence.
   */
  lemma EqualsIsEquivalence(a: Entry, b: Entry, c: Entry)
    ensures a.Equals(b) ==> b.Equals(a)
    ensures a.Equals(b) && b.Equals(c) ==> a.Equals(c)
  {
  }

  /**
   * With an empty local prefix every part number matches, so
   * `getOnePartNumber` answers the last part number in iteration order.
   */
  method OnePartNumberForEmptyPrefix(e: Entry) returns (r: Option<PartNumber>)
    ensures e.partNumbers.elems == [] ==> r == None
    ensures e.partNumbers.elems != [] ==> r == Some(Last(e.partNumbers.elems))
  {
    r := e.GetOnePartNumber("");
    if e.partNumbers.elems != [] {
      ContainsEmpty(Last(e.partNumbers.elems).partNumber);
    }
  }

  /**
   * When the prefix is the text of one of the entry's part numbers,
   * `getOnePartNumber` never falls back to the first part number: its answer
   * contains the prefix.
   */
  method OnePartNumberForOwnPrefix(e: Entry, i: nat) returns (r: Option<PartNumber>)
    requires i < |e.partNumbers.elems|
    ensures r.Some? && Contains(r.value.partNumber, e.partNumbers.elems[i].partNumber)
  {
    var prefix := e.partNumbers.elems[i].partNumber;
    ContainsSelf(prefix);
    r := e.GetOnePartNumber(prefix);
  }

  /** A new marker set holding `a` and then `b`. */
  method MarkerPair(a: SelectionMarker, b: SelectionMarker) returns (pair: OrderedSet<SelectionMarker>)
    requires a != b
    ensures fresh(pair) && pair.Valid() && pair.elems == [a, b]
  {
    pair := new OrderedSet();
    var _ := pair.Add(a);
    var _ := pair.Add(b);
  }

  /**
   * Replacing the selection markers {A, B} by {B, C} leaves exactly B and C:
   * A is dropped rather than merged in, and the entry keeps its marker set.
   */
  method MarkersReplacedNotMerged() returns (markers: seq<SelectionMarker>)
    ensures markers == [SelectionMarker("B"), SelectionMarker("C")]
  {
    var e := new Entry(Strain);
    var first := MarkerPair(SelectionMarker("A"), SelectionMarker("B"));
    e.SetSelectionMarkers(first);
    var second := MarkerPair(SelectionMarker("B"), SelectionMarker("C"));
    e.SetSelectionMarkers(second);
    markers := e.selectionMarkers.elems;
  }

  /**
   * `getBioSafetyLevelOptionsMap`: the two biosafety levels, in order, each
   * mapped to its display text.
   */
  function BioSafetyLevelOptions(): (options: seq<(string, string)>)
    ensures |options| == 2
    ensures options[0].0 == "1" && options[1].0 == "2"
    ensures forall i | 0 <= i < |options| :: options[i].1 == "Level " + options[i].0
  {
    [("1", "Level 1"), ("2", "Level 2")]
  }
}
