/**
 * The entry transfer object shown to the web client: the closed set of entry
 * types with their case-insensitive lookup by name, and the list of sample
 * storage summaries that the object owns.
 */
module EntryInfoDto {
  import opened Wrappers
  import opened JavaLang
  import opened Collections

  /** The entry types, each with a display string and a lower-case name. */
  datatype EntryType = Strain | Plasmid | Part | Arabidopsis {

    /** `getName()`: a non-empty word of lower-case ASCII letters. */
    function Name(): (n: string)
      ensures n != [] && forall i | 0 <= i < |n| :: 'a' <= n[i] <= 'z'
    {
      match this
      case Strain => "strain"
      case Plasmid => "plasmid"
      case Part => "part"
      case Arabidopsis => "arabidopsis"
    }

    /** `getDisplay()`: the name with its first letter capitalised. */
    function Display(): (d: string)
      ensures EqualsIgnoreCase(d, Name()) && 'A' <= d[0] <= 'Z'
      ensures d[1..] == Name()[1..]
    {
      match this
      case Strain => "Strain"
      case Plasmid => "Plasmid"
      case Part => "Part"
      case Arabidopsis => "Arabidopsis"
    }

    /** `toString()` is the display string, which is not the name but equals it ignoring case. */
    function ToString(): (s: string)
      ensures s != Name() && EqualsIgnoreCase(s, Name())
    {
      Display()
    }
  }

  /** `EntryType.values()`, in declaration order. */
  const Values: seq<EntryType> := [Strain, Plasmid, Part, Arabidopsis]

  /** `values()` lists every type. */
  lemma ValuesListsEveryType()
    ensures forall t: EntryType :: t in Values
  {
    forall t: EntryType
      ensures t in Values
    {
      match t
      case Strain => assert Values[0] == t;
      case Plasmid => assert Values[1] == t;
      case Part => assert Values[2] == t;
      case Arabidopsis => assert Values[3] == t;
    }
  }

  /** The first of `types` whose name equals `name` ignoring case, if any. */
  function FirstMatch(name: string, types: seq<EntryType>): (r: Option<EntryType>)
    ensures r.Some? ==> r.value in types && EqualsIgnoreCase(name, r.value.Name())
    ensures r.None? <==> forall t | t in types :: !EqualsIgnoreCase(name, t.Name())
  {
    if types == [] then None
    else if EqualsIgnoreCase(name, types[0].Name()) then Some(types[0])
    else FirstMatch(name, types[1..])
  }

  /** `nameToType`: the type whose name equals `name` ignoring case, or null. */
  function NameToType(name: string): (r: Option<EntryType>)
    ensures r.Some? ==> EqualsIgnoreCase(name, r.value.Name())
    ensures r.None? <==> forall t: EntryType :: !EqualsIgnoreCase(name, t.Name())
  {
    ValuesListsEveryType();
    FirstMatch(name, Values)
  }

  /** No two types have names that are equal ignoring case (they differ in length). */
  lemma NamesDistinct(t: EntryType, u: EntryType, name: string)
    requires EqualsIgnoreCase(name, t.Name()) && EqualsIgnoreCase(name, u.Name())
    ensures t == u
  {
  }

  /** `nameToType` finds exactly the type whose name matches: both directions. */
  lemma NameToTypeMatches(name: string, t: EntryType)
    ensures NameToType(name) == Some(t) <==> EqualsIgnoreCase(name, t.Name())
  {
    if EqualsIgnoreCase(name, t.Name()) {
      assert t in Values;
      var r := NameToType(name);
      assert r.Some?;
      NamesDistinct(t, r.value, name);
    }
  }

  /** The name of every type leads back to that type. */
  lemma NameToTypeRoundTrip(t: EntryType)
    ensures NameToType(t.Name()) == Some(t)
  {
    NameToTypeMatches(t.Name(), t);
  }

  /** Upper-casing the name does not change the lookup. */
  lemma NameToTypeIgnoresCase(name: string)
    ensures NameToType(ToUpperAscii(name)) == NameToType(name)
  {
    forall t: EntryType
      ensures EqualsIgnoreCase(ToUpperAscii(name), t.Name()) == EqualsIgnoreCase(name, t.Name())
    {
      EqualsIgnoreCaseUpper(name, t.Name());
    }
    var upper := ToUpperAscii(name);
    match NameToType(name)
    case Some(t) =>
      NameToTypeMatches(name, t);
      NameToTypeMatches(upper, t);
    case None =>
      match NameToType(upper)
      case Some(t) =>
        NameToTypeMatches(upper, t);
        NameToTypeMatches(name, t);
      case None =>
  }

  /** Lookup ignores case: the upper-case name finds its type. */
  lemma NameToTypeUpperCaseExample()
    ensures NameToType("PLASMID") == Some(Plasmid)
  {
    assert ToUpperAscii("plasmid") == "PLASMID";
    NameToTypeIgnoresCase("plasmid");
    NameToTypeRoundTrip(Plasmid);
  }

  /** "seed" is the name of no type, ignoring case. */
  lemma SeedNamesNoType(t: EntryType)
    ensures !EqualsIgnoreCase("seed", t.Name())
  {
    match t
    case Part =>
      assert "seed"[0] == 's' && "part"[0] == 'p';
    case Strain => assert |t.Name()| == 6;
    case Plasmid => assert |t.Name()| == 7;
    case Arabidopsis => assert |t.Name()| == 11;
  }

  /** A name that matches no type finds nothing. */
  lemma NameToTypeMissExample()
    ensures NameToType("seed") == None
  {
    forall t: EntryType
      ensures !EqualsIgnoreCase("seed", t.Name())
    {
      SeedNamesNoType(t);
    }
  }

  /** A sample together with where it is stored, as the client shows it. */
  datatype SampleStorage = SampleStorage(sampleLabel: string, locations: seq<string>)

  class EntryInfo {
    const entryType: EntryType
    /** The sample storage list; the object keeps the same list throughout. */
    const sampleStorage: ArrayList<SampleStorage>

    /** `new EntryInfo(type)`: that type and an empty sample storage list. */
    constructor (entryType: EntryType)
      ensures this.entryType == entryType
      ensures fresh(sampleStorage) && sampleStorage.elems == []
    {
      this.entryType := entryType;
      sampleStorage := new ArrayList();
    }

    /**
     * `setSampleMap` as written: clears the list, then adds the elements of
     * the argument as they are at that moment. Passed the object's own list,
     * it therefore leaves the list empty. Passed null, it has already cleared
     * the list when `addAll` throws a NullPointerException (`thrown`).
     */
    method SetSampleMap(input: ArrayList?<SampleStorage>) returns (thrown: bool)
      modifies sampleStorage
      ensures thrown <==> input == null
      ensures input == null ==> sampleStorage.elems == []
      ensures input != null && input != sampleStorage ==> sampleStorage.elems == old(input.elems)
      ensures input == sampleStorage ==> sampleStorage.elems == []
    {
      sampleStorage.Clear();
      if input == null {
        return true;
      }
      sampleStorage.AddAll(input.elems);
      thrown := false;
    }

    /**
     * `setSampleMap` as evidently intended, guarded like the entry's
     * collection setters: null clears the list without failing, and otherwise
     * the list holds exactly the argument's elements, whichever list is passed.
     */
    method SetSampleMapGuarded(input: ArrayList?<SampleStorage>)
      modifies sampleStorage
      ensures input == null ==> sampleStorage.elems == []
      ensures input != null ==> sampleStorage.elems == old(input.elems)
    {
      if input == null {
        sampleStorage.Clear();
      } else if input != sampleStorage {
        sampleStorage.Clear();
        sampleStorage.AddAll(input.elems);
      }
    }
  }

  /**
   * Passing an entry info's own non-empty sample storage list back to
   * `setSampleMap` empties it: `before` and `after` are the list's lengths.
   */
  method SelfSetEmptiesSampleMap() returns (before: nat, after: nat)
    ensures before == 1 && after == 0
  {
    var info := new EntryInfo(Plasmid);
    info.sampleStorage.Add(SampleStorage("tube 1", ["shelf A"]));
    before := |info.sampleStorage.elems|;
    var _ := info.SetSampleMap(info.sampleStorage);
    after := |info.sampleStorage.elems|;
  }

  /** The guarded setter leaves the same list as it was. */
  method SelfSetKeepsSampleMap() returns (before: nat, after: nat)
    ensures before == 1 && after == 1
  {
    var info := new EntryInfo(Plasmid);
    info.sampleStorage.Add(SampleStorage("tube 1", ["shelf A"]));
    before := |info.sampleStorage.elems|;
    info.SetSampleMapGuarded(info.sampleStorage);
    after := |info.sampleStorage.elems|;
  }
}
