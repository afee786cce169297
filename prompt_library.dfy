/** `PromptLibrary`: the fixed table of system prompts, its listing and its lookup. */
module PromptLibrary {
  import opened Wrappers

  datatype PromptOptions = PromptOptions(cwd: string, allowedHtmlElements: seq<string>, modificationTagName: string)

  /** The functions the prompt modules export, given as values: the prompt
      text itself is not part of this model. */
  datatype PromptSources = PromptSources(
    getSystemPrompt: string -> string,       // prompts/prompts, called with `cwd`
    optimized: PromptOptions -> string,      // prompts/optimized
    getSystemPromptGiga: string -> string,   // prompts/sberGigaChat_full, called with `cwd`
    optimizedGiga: PromptOptions -> string,  // prompts/sberGigaChat_optimised
    sberGigaChatShort: () -> string)         // prompts/sberGigaChat_short, no arguments

  /** Which source an entry's `get` arrow calls, and with what. */
  datatype Generator = DefaultPrompt | OptimizedPrompt | GigaFullPrompt | GigaOptimisedPrompt | GigaShortPrompt

  /** One entry; `displayLabel` is the source's `label` (a reserved word here). */
  datatype PromptEntry = PromptEntry(displayLabel: string, description: string, generator: Generator)

  /** An entry's `get(options)`. */
  function Get(entry: PromptEntry, sources: PromptSources, options: PromptOptions): string
  {
    match entry.generator
    case DefaultPrompt => sources.getSystemPrompt(options.cwd)
    case OptimizedPrompt => sources.optimized(options)
    case GigaFullPrompt => sources.getSystemPromptGiga(options.cwd)
    case GigaOptimisedPrompt => sources.optimizedGiga(options)
    case GigaShortPrompt => sources.sberGigaChatShort()
  }

  /** `PromptLibrary.library`, as its own properties in insertion order. */
  const Library: seq<(string, PromptEntry)> := [
    ("default", PromptEntry("Default Prompt", "This is the battle tested default system Prompt", DefaultPrompt)),
    ("optimized", PromptEntry("Optimized Prompt (experimental)", "an Experimental version of the prompt for lower token usage", OptimizedPrompt)),
    ("sberGigaChat_full", PromptEntry("SberGigaChat Full", "Full version of the prompt for SberGigaChat", GigaFullPrompt)),
    ("sberGigaChat_optimised", PromptEntry("SberGigaChat Optimized", "Optimized version of the prompt for SberGigaChat", GigaOptimisedPrompt)),
    ("sberGigaChat_short", PromptEntry("SberGigaChat Short", "Short version of the prompt for SberGigaChat", GigaShortPrompt))
  ]

  const PromptNotFound: string := "Prompt Now Found"

  datatype PromptListItem = PromptListItem(id: string, displayLabel: string, description: string)

  /** `getList`: one item per entry, in key order, id being the key. */
  function GetList(): (r: seq<PromptListItem>)
    ensures |r| == |Library|
    ensures forall i :: 0 <= i < |r| ==>
              r[i].id == Library[i].0 && r[i].displayLabel == Library[i].1.displayLabel && r[i].description == Library[i].1.description
  {
    seq(|Library|, i requires 0 <= i < |Library| => PromptListItem(Library[i].0, Library[i].1.displayLabel, Library[i].1.description))
  }

  /** The keys are the five prompt ids, each once, each with its own prompt source. */
  lemma LibraryIds()
    ensures |Library| == 5
    ensures Library[0].0 == "default" && Library[1].0 == "optimized" && Library[2].0 == "sberGigaChat_full"
            && Library[3].0 == "sberGigaChat_optimised" && Library[4].0 == "sberGigaChat_short"
    ensures Library[0].1.generator == DefaultPrompt && Library[1].1.generator == OptimizedPrompt
            && Library[2].1.generator == GigaFullPrompt && Library[3].1.generator == GigaOptimisedPrompt
            && Library[4].1.generator == GigaShortPrompt
    ensures forall i, j :: 0 <= i < j < |Library| ==> Library[i].0 != Library[j].0
  {
  }

  /** An own-property lookup `entries[id]`: the entry with that key, if any. */
  function FindEntry(entries: seq<(string, PromptEntry)>, id: string): (r: Option<PromptEntry>)
    ensures r.None? <==> forall i :: 0 <= i < |entries| ==> entries[i].0 != id
    ensures r.Some? ==> exists i :: 0 <= i < |entries| && entries[i].0 == id && entries[i].1 == r.value
  {
    if entries == [] then None
    else if entries[0].0 == id then Some(entries[0].1)
    else FindEntry(entries[1..], id)
  }

  /** What a lookup throws: the string `'Prompt Now Found'`, or a TypeError. */
  datatype LookupError = Thrown(message: string) | TypeError

  /** The names every object literal inherits from `Object.prototype`; reading
      one of them from the library gives a truthy value that has no `get`. */
  const InheritedNames: set<string> := {
    "constructor", "hasOwnProperty", "isPrototypeOf", "propertyIsEnumerable", "toLocaleString",
    "toString", "valueOf", "__proto__", "__defineGetter__", "__defineSetter__",
    "__lookupGetter__", "__lookupSetter__"
  }

  /** `getPropmtFromLibrary` as written: `this.library[promptId]` also sees
      inherited members, which pass the `!prompt` guard and then fail at `.get(options)`. */
  function GetPromptAsWritten(promptId: string, sources: PromptSources, options: PromptOptions): (r: Result<string, LookupError>)
    ensures r.Success? <==> FindEntry(Library, promptId).Some?
    ensures r.Failure? && promptId !in InheritedNames ==> r.error == Thrown(PromptNotFound)
    ensures promptId in InheritedNames ==> r == Failure(TypeError)
    ensures r.Success? ==> r.value == Get(FindEntry(Library, promptId).value, sources, options)
  {
    assert forall i :: 0 <= i < |Library| ==> Library[i].0 !in InheritedNames;
    match FindEntry(Library, promptId)
    case Some(entry) => Success(Get(entry, sources, options))
    case None => if promptId in InheritedNames then Failure(TypeError) else Failure(Thrown(PromptNotFound))
  }

  lemma InheritedNameEscapesGuard(sources: PromptSources, options: PromptOptions)
    ensures GetPromptAsWritten("toString", sources, options) == Failure(TypeError)
    ensures GetPromptAsWritten("__proto__", sources, options) == Failure(TypeError)
  {
    assert "toString" in InheritedNames && "__proto__" in InheritedNames;
  }

  /** `getPropmtFromLibrary` with the lookup restricted to the library's own
      entries: the entry's `get(options)` for a known id, `'Prompt Now Found'` otherwise. */
  function GetPromptFromLibrary(promptId: string, sources: PromptSources, options: PromptOptions): (r: Result<string, LookupError>)
    ensures r.Failure? <==> forall i :: 0 <= i < |Library| ==> Library[i].0 != promptId
    ensures r.Failure? ==> r.error == Thrown(PromptNotFound)
    ensures r.Success? ==> exists i :: 0 <= i < |Library| && Library[i].0 == promptId
                                        && r.value == Get(Library[i].1, sources, options)
  {
    match FindEntry(Library, promptId)
    case Some(entry) => Success(Get(entry, sources, options))
    case None => Failure(Thrown(PromptNotFound))
  }

  /** The two lookups differ only on the inherited names. */
  lemma AsWrittenAgreesElsewhere(promptId: string, sources: PromptSources, options: PromptOptions)
    requires promptId !in InheritedNames
    ensures GetPromptAsWritten(promptId, sources, options) == GetPromptFromLibrary(promptId, sources, options)
  {
  }

  /** Every id `getList` offers is found. */
  lemma ListedIdsAreFound(sources: PromptSources, options: PromptOptions)
    ensures forall i :: 0 <= i < |GetList()| ==> GetPromptFromLibrary(GetList()[i].id, sources, options).Success?
  {
    forall i | 0 <= i < |GetList()|
      ensures GetPromptFromLibrary(GetList()[i].id, sources, options).Success?
    {
      assert Library[i].0 == GetList()[i].id;
    }
  }

  /** With distinct keys, looking up the key of entry `i` finds entry `i`. */
  lemma {:induction false} FindDistinctKey(entries: seq<(string, PromptEntry)>, i: nat)
    requires i < |entries|
    requires forall j, k :: 0 <= j < k < |entries| ==> entries[j].0 != entries[k].0
    ensures FindEntry(entries, entries[i].0) == Some(entries[i].1)
  {
    if i > 0 {
      assert entries[0].0 != entries[i].0;
      assert entries[1..][i - 1] == entries[i];
      FindDistinctKey(entries[1..], i - 1);
    }
  }

  /** For a known id the lookup is that entry's `get(options)`. */
  lemma {:induction false} KnownIdGivesEntry(i: nat, sources: PromptSources, options: PromptOptions)
    requires i < |Library|
    ensures GetPromptFromLibrary(Library[i].0, sources, options) == Success(Get(Library[i].1, sources, options))
  {
    LibraryIds();
    FindDistinctKey(Library, i);
  }

  /** The short GigaChat prompt does not depend on the options. */
  lemma ShortPromptIgnoresOptions(sources: PromptSources, o1: PromptOptions, o2: PromptOptions)
    ensures GetPromptFromLibrary("sberGigaChat_short", sources, o1) == GetPromptFromLibrary("sberGigaChat_short", sources, o2)
  {
    assert GetPromptFromLibrary("sberGigaChat_short", sources, o1) == Success(sources.sberGigaChatShort()) by {
      LibraryIds();
      KnownIdGivesEntry(4, sources, o1);
    }
    assert GetPromptFromLibrary("sberGigaChat_short", sources, o2) == Success(sources.sberGigaChatShort()) by {
      LibraryIds();
      KnownIdGivesEntry(4, sources, o2);
    }
  }

  /** The default and full GigaChat prompts depend on `cwd` only. */
  lemma CwdPromptsDependOnCwdOnly(sources: PromptSources, o1: PromptOptions, o2: PromptOptions)
    requires o1.cwd == o2.cwd
    ensures GetPromptFromLibrary("default", sources, o1) == GetPromptFromLibrary("default", sources, o2)
    ensures GetPromptFromLibrary("sberGigaChat_full", sources, o1) == GetPromptFromLibrary("sberGigaChat_full", sources, o2)
  {
    LibraryIds();
    assert GetPromptFromLibrary("default", sources, o1) == Success(sources.getSystemPrompt(o1.cwd)) by {
      KnownIdGivesEntry(0, sources, o1);
    }
    assert GetPromptFromLibrary("default", sources, o2) == Success(sources.getSystemPrompt(o2.cwd)) by {
      KnownIdGivesEntry(0, sources, o2);
    }
    assert GetPromptFromLibrary("sberGigaChat_full", sources, o1) == Success(sources.getSystemPromptGiga(o1.cwd)) by {
      KnownIdGivesEntry(2, sources, o1);
    }
    assert GetPromptFromLibrary("sberGigaChat_full", sources, o2) == Success(sources.getSystemPromptGiga(o2.cwd)) by {
      KnownIdGivesEntry(2, sources, o2);
    }
  }
}
