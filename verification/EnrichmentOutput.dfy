/** The validated enrichment output, and the cache that stores and re-validates it. */
module EnrichmentOutput {
  import opened Categories
  import opened Sequences
  import opened Text
  import opened Wrappers

  /** A decoded payload: fields that may have the wrong type are `None`. */
  datatype Payload = Payload(
    summary: Option<string>,
    category: Option<string>,
    signalTags: Option<seq<string>>,
    prioritySignal: Option<string>,
    suppliers: Option<seq<Option<string>>>,
    regions: Option<seq<Option<string>>>,
    categories: Option<seq<Option<string>>>)

  datatype Output = Output(
    summary: string,
    category: string,
    signalTags: seq<string>,
    prioritySignal: Option<string>,
    suppliers: seq<string>,
    regions: seq<string>,
    categories: seq<string>)

  /** The signal taxonomy: the stored tag of a term, if it has one. */
  type Taxonomy = string -> Option<string>

  /** A stored tag is not empty and stands for itself. */
  ghost predicate Stable(taxonomy: Taxonomy) {
    forall term :: taxonomy(term).Some? ==>
      taxonomy(term).value != "" && taxonomy(taxonomy(term).value) == taxonomy(term)
  }

  function ValidCategory(category: Option<string>): string {
    if category.None? then "general"
    else
      var canonical := CanonicalCategory(Lower(category.value));
      if IsCanonical(canonical) then canonical else "general"
  }

  /** `kept` are the stripped texts that are not blank, in order and each once; `at` says where each
      occurs first. */
  ghost predicate KeptAt(texts: seq<string>, kept: seq<string>, at: seq<nat>) {
    && |at| == |kept|
    && (forall j, k :: 0 <= j < k < |at| ==> at[j] < at[k])
    && (forall k :: 0 <= k < |at| ==> at[k] < |texts| && Strip(texts[at[k]]) == kept[k] && kept[k] != "")
    && (forall k, i :: 0 <= k < |at| && 0 <= i < at[k] && i < |texts| ==> Strip(texts[i]) != kept[k])
    && forall i :: 0 <= i < |texts| ==> Strip(texts[i]) == "" || Strip(texts[i]) in kept
  }

  ghost predicate KeptInOrder(texts: seq<string>, kept: seq<string>) {
    exists at :: KeptAt(texts, kept, at)
  }

  /** An item that is not text counts as a blank one. */
  ghost function TextsOf(items: seq<Option<string>>): seq<string> {
    seq(|items|, i requires 0 <= i < |items| => if items[i].Some? then items[i].value else "")
  }

  lemma PickedIsKept(texts: seq<string>, values: seq<string>)
    requires |values| == |texts| && forall i :: 0 <= i < |texts| ==> values[i] == Strip(texts[i])
    ensures KeptInOrder(texts, Deduped(values))
  {
    var at := DedupedPicks(values);
    hide Strip, Deduped;
    assert KeptAt(texts, Deduped(values), at);
  }

  function Stripped(items: seq<Option<string>>): seq<string> {
    seq(|items|, i requires 0 <= i < |items| => if items[i].Some? then Strip(items[i].value) else "")
  }

  /** Anything but a list becomes empty; items that are not text, blank items and repeats go. */
  function ValidEntities(items: Option<seq<Option<string>>>): seq<string> {
    if items.None? then [] else Deduped(Stripped(items.value))
  }

  method NormalizeEntityList(items: seq<Option<string>>) returns (normalized: seq<string>)
    ensures normalized == ValidEntities(Some(items))
    ensures KeptInOrder(TextsOf(items), normalized)
  {
    EntitiesAreKept(items);
    hide KeptInOrder, TextsOf;
    normalized := [];
    for i := 0 to |items|
      invariant normalized == Deduped(Stripped(items)[..i])
    {
      assert Stripped(items)[..i + 1][..i] == Stripped(items)[..i];
      if items[i].Some? {
        var text := Strip(items[i].value);
        if text != "" && text !in normalized {
          normalized := normalized + [text];
        }
      }
    }
    assert Stripped(items)[..|items|] == Stripped(items);
  }

  lemma EntitiesAreKept(items: seq<Option<string>>)
    ensures KeptInOrder(TextsOf(items), ValidEntities(Some(items)))
  {
    PickedIsKept(TextsOf(items), Stripped(items));
  }

  function TagOrBlank(taxonomy: Taxonomy, term: string): string {
    if taxonomy(term).Some? then taxonomy(term).value else ""
  }

  function ValidTags(taxonomy: Taxonomy, terms: seq<string>): seq<string> {
    Deduped(seq(|terms|, i requires 0 <= i < |terms| => TagOrBlank(taxonomy, terms[i])))
  }

  /** Validation, or `None` where the parser raises a validation error. */
  function Validate(taxonomy: Taxonomy, payload: Payload): Option<Output> {
    if payload.summary.None? || |payload.summary.value| < 10 || |payload.summary.value| > 1000 || payload.signalTags.None? then None
    else Some(Output(
      payload.summary.value,
      ValidCategory(payload.category),
      ValidTags(taxonomy, payload.signalTags.value),
      if payload.prioritySignal.None? then None else taxonomy(payload.prioritySignal.value),
      ValidEntities(payload.suppliers),
      ValidEntities(payload.regions),
      ValidEntities(payload.categories)))
  }

  /** What validation accepts and what it makes of each field. */
  lemma ValidationExactly(taxonomy: Taxonomy, payload: Payload)
    ensures Validate(taxonomy, payload).Some? <==>
              payload.summary.Some? && 10 <= |payload.summary.value| <= 1000 && payload.signalTags.Some?
    ensures Validate(taxonomy, payload).Some? ==>
              var output := Validate(taxonomy, payload).value;
              && Some(output.summary) == payload.summary
              && IsCanonical(output.category)
              && (payload.category.None? ==> output.category == "general")
              && (payload.category.Some? && IsCanonical(CanonicalCategory(Lower(payload.category.value))) ==>
                    output.category == CanonicalCategory(Lower(payload.category.value)))
              && (payload.category.Some? && !IsCanonical(CanonicalCategory(Lower(payload.category.value))) ==> output.category == "general")
              && TagsPicked(taxonomy, payload.signalTags.value, output.signalTags)
              && (forall tag :: tag in output.signalTags <==> tag != "" && exists term :: term in payload.signalTags.value && taxonomy(term) == Some(tag))
              && output.prioritySignal == (if payload.prioritySignal.Some? then taxonomy(payload.prioritySignal.value) else None)
              && KeptInOrder(if payload.suppliers.Some? then TextsOf(payload.suppliers.value) else [], output.suppliers)
              && KeptInOrder(if payload.regions.Some? then TextsOf(payload.regions.value) else [], output.regions)
              && KeptInOrder(if payload.categories.Some? then TextsOf(payload.categories.value) else [], output.categories)
  {
    if Validate(taxonomy, payload).Some? {
      hide CanonicalCategory, KeptInOrder, IsCanonical, TagsPicked;
      CategoryIsCanonical(payload.category);
      TagsExactly(taxonomy, payload.signalTags.value);
      EntitiesAreKeptIf(payload.suppliers);
      EntitiesAreKeptIf(payload.regions);
      EntitiesAreKeptIf(payload.categories);
    }
  }

  lemma CategoryIsCanonical(category: Option<string>)
    ensures IsCanonical(ValidCategory(category)) && (category.None? ==> ValidCategory(category) == "general")
    ensures category.Some? ==> ValidCategory(category) == if IsCanonical(CanonicalCategory(Lower(category.value))) then CanonicalCategory(Lower(category.value)) else "general"
  {
    hide CanonicalCategory;
  }

  lemma EntitiesAreKeptIf(items: Option<seq<Option<string>>>)
    ensures KeptInOrder(if items.Some? then TextsOf(items.value) else [], ValidEntities(items))
  {
    if items.Some? {
      EntitiesAreKept(items.value);
    } else {
      assert KeptAt([], [], []);
    }
  }

  /** The tags of the terms that have one, in their order, each once. */
  ghost predicate TagsPicked(taxonomy: Taxonomy, terms: seq<string>, tags: seq<string>) {
    PickedFrom(seq(|terms|, i requires 0 <= i < |terms| => if taxonomy(terms[i]).Some? then taxonomy(terms[i]).value else ""), tags)
  }

  lemma TagsArePicked(taxonomy: Taxonomy, terms: seq<string>)
    ensures TagsPicked(taxonomy, terms, ValidTags(taxonomy, terms))
  {
    var tags := seq(|terms|, i requires 0 <= i < |terms| => if taxonomy(terms[i]).Some? then taxonomy(terms[i]).value else "");
    assert tags == seq(|terms|, i requires 0 <= i < |terms| => TagOrBlank(taxonomy, terms[i]));
    var at := DedupedPicks(tags);
    hide Picks;
    assert PickedFrom(tags, Deduped(tags));
  }

  lemma TagsExactly(taxonomy: Taxonomy, terms: seq<string>)
    ensures TagsPicked(taxonomy, terms, ValidTags(taxonomy, terms))
    ensures forall tag :: tag in ValidTags(taxonomy, terms) <==> tag != "" && exists term :: term in terms && taxonomy(term) == Some(tag)
  {
    TagsArePicked(taxonomy, terms);
    hide TagsPicked;
    var blanks := seq(|terms|, i requires 0 <= i < |terms| => TagOrBlank(taxonomy, terms[i]));
    assert ValidTags(taxonomy, terms) == Deduped(blanks);
    forall tag ensures tag in blanks && tag != "" <==> tag != "" && exists term :: term in terms && taxonomy(term) == Some(tag) {
      if term :| term in terms && taxonomy(term) == Some(tag) {
        var i :| 0 <= i < |terms| && terms[i] == term;
        assert blanks[i] == tag;
      }
      if tag in blanks && tag != "" {
        var i :| 0 <= i < |blanks| && blanks[i] == tag;
        assert terms[i] in terms && taxonomy(terms[i]) == Some(tag);
      }
    }
  }

  function Items(values: seq<string>): Option<seq<Option<string>>> {
    Some(seq(|values|, i requires 0 <= i < |values| => Some(values[i])))
  }

  /** The payload stored for an output. */
  function Dump(output: Output): Payload {
    Payload(Some(output.summary), Some(output.category), Some(output.signalTags), output.prioritySignal,
            Items(output.suppliers), Items(output.regions), Items(output.categories))
  }

  ghost predicate Valid(taxonomy: Taxonomy, output: Output) {
    Validate(taxonomy, Dump(output)) == Some(output)
  }

  ghost predicate CleanEntities(values: seq<string>) {
    Distinct(values) && forall v :: v in values ==> v != "" && Strip(v) == v
  }

  lemma EntitiesAreClean(items: Option<seq<Option<string>>>)
    ensures CleanEntities(ValidEntities(items))
  {
    if items.Some? {
      forall v | v in ValidEntities(items) ensures Strip(v) == v {
        assert v in Stripped(items.value);
        var i :| 0 <= i < |items.value| && Stripped(items.value)[i] == v;
        if items.value[i].Some? { StripIdempotent(items.value[i].value); }
      }
    }
  }

  lemma CleanEntitiesAreFixed(values: seq<string>)
    requires CleanEntities(values)
    ensures ValidEntities(Items(values)) == values
  {
    assert Stripped(Items(values).value) == values;
    DedupedIsFixed(values);
  }

  lemma ValidCategoryIsFixed(category: Option<string>)
    ensures ValidCategory(Some(ValidCategory(category))) == ValidCategory(category)
  {
    var valid := ValidCategory(category);
    assert IsCanonical(valid);
    CanonicalIsFixed(valid);
  }

  lemma TagsAreFixed(taxonomy: Taxonomy, terms: seq<string>)
    requires Stable(taxonomy)
    ensures ValidTags(taxonomy, ValidTags(taxonomy, terms)) == ValidTags(taxonomy, terms)
  {
    var tags := ValidTags(taxonomy, terms);
    var blanks := seq(|terms|, i requires 0 <= i < |terms| => TagOrBlank(taxonomy, terms[i]));
    forall k | 0 <= k < |tags| ensures TagOrBlank(taxonomy, tags[k]) == tags[k] {
      assert tags[k] in blanks;
      var i :| 0 <= i < |blanks| && blanks[i] == tags[k];
    }
    assert seq(|tags|, i requires 0 <= i < |tags| => TagOrBlank(taxonomy, tags[i])) == tags;
    DedupedIsFixed(tags);
  }

  /** Every field is one validation leaves alone. */
  ghost predicate Settled(taxonomy: Taxonomy, output: Output) {
    && 10 <= |output.summary| <= 1000
    && ValidCategory(Some(output.category)) == output.category
    && ValidTags(taxonomy, output.signalTags) == output.signalTags
    && (output.prioritySignal.Some? ==> taxonomy(output.prioritySignal.value) == output.prioritySignal)
    && CleanEntities(output.suppliers) && CleanEntities(output.regions) && CleanEntities(output.categories)
  }

  lemma SettledIsValid(taxonomy: Taxonomy, output: Output)
    requires Settled(taxonomy, output)
    ensures Valid(taxonomy, output)
  {
    hide ValidCategory, ValidTags, ValidEntities, CleanEntities;
    CleanEntitiesAreFixed(output.suppliers);
    CleanEntitiesAreFixed(output.regions);
    CleanEntitiesAreFixed(output.categories);
  }

  /** What validation produces survives being dumped and validated again. */
  lemma ValidatedRoundTrips(taxonomy: Taxonomy, payload: Payload)
    requires Stable(taxonomy) && Validate(taxonomy, payload).Some?
    ensures Valid(taxonomy, Validate(taxonomy, payload).value)
  {
    hide ValidCategory, ValidTags, ValidEntities, CleanEntities, Valid;
    ValidCategoryIsFixed(payload.category);
    TagsAreFixed(taxonomy, payload.signalTags.value);
    EntitiesAreClean(payload.suppliers);
    EntitiesAreClean(payload.regions);
    EntitiesAreClean(payload.categories);
    SettledIsValid(taxonomy, Validate(taxonomy, payload).value);
  }

  function StripAll(values: seq<string>): seq<string> {
    seq(|values|, i requires 0 <= i < |values| => Strip(values[i]))
  }

  function MergedEntities(values: seq<string>): seq<string> {
    Deduped(StripAll(values))
  }

  /** A model output with the local evidence it omitted. The merge itself is not validated. */
  function MergeEvidence(llm: Output, local: Output): Output {
    llm.(suppliers := MergedEntities(llm.suppliers + local.suppliers),
         regions := MergedEntities(llm.regions + local.regions),
         categories := MergedEntities(llm.categories + [llm.category] + local.categories))
  }

  /** The merge keeps the reply's own text, category, tags and priority, and adds every entity of the
      local evidence: the stripped texts of both, in order and each once. */
  lemma MergedExactly(llm: Output, local: Output)
    ensures var merged := MergeEvidence(llm, local);
            && merged.summary == llm.summary && merged.category == llm.category
            && merged.signalTags == llm.signalTags && merged.prioritySignal == llm.prioritySignal
            && KeptInOrder(llm.suppliers + local.suppliers, merged.suppliers)
            && KeptInOrder(llm.regions + local.regions, merged.regions)
            && KeptInOrder(llm.categories + [llm.category] + local.categories, merged.categories)
  {
    hide Strip, KeptInOrder;
    PickedIsKept(llm.suppliers + local.suppliers, StripAll(llm.suppliers + local.suppliers));
    PickedIsKept(llm.regions + local.regions, StripAll(llm.regions + local.regions));
    PickedIsKept(llm.categories + [llm.category] + local.categories, StripAll(llm.categories + [llm.category] + local.categories));
  }

  lemma MergedIsClean(values: seq<string>)
    ensures CleanEntities(MergedEntities(values))
  {
    forall v | v in MergedEntities(values) ensures Strip(v) == v {
      assert v in StripAll(values);
      var i :| 0 <= i < |values| && StripAll(values)[i] == v;
      StripIdempotent(values[i]);
    }
  }

  /** Merging evidence into a validated output leaves it as valid as it was. */
  lemma MergeKeepsValid(taxonomy: Taxonomy, llm: Output, local: Output)
    requires Valid(taxonomy, llm)
    ensures Valid(taxonomy, MergeEvidence(llm, local))
  {
    var merged := MergeEvidence(llm, local);
    hide ValidCategory, ValidTags, ValidEntities, MergedEntities;
    MergedIsClean(llm.suppliers + local.suppliers);
    MergedIsClean(llm.regions + local.regions);
    MergedIsClean(llm.categories + [llm.category] + local.categories);
    CleanEntitiesAreFixed(merged.suppliers);
    CleanEntitiesAreFixed(merged.regions);
    CleanEntitiesAreFixed(merged.categories);
  }

  datatype CacheKey = CacheKey(fingerprint: string, policyVersion: string, taxonomyVersion: string)

  datatype Method = Deterministic | Llm

  /** A stored payload that no longer decodes is `None`. */
  datatype Entry = Entry(payload: Option<Payload>, original: Method, hits: nat)

  type Entries = map<CacheKey, Entry>

  /** The validated output stored under a key, if there is one. */
  function Lookup(taxonomy: Taxonomy, entries: Entries, key: CacheKey): Option<Output> {
    if key in entries && entries[key].payload.Some? then Validate(taxonomy, entries[key].payload.value) else None
  }

  function Hit(entries: Entries, key: CacheKey): Entries {
    if key in entries then entries[key := entries[key].(hits := entries[key].hits + 1)] else entries
  }

  function Put(entries: Entries, key: CacheKey, output: Output, original: Method): Entries {
    if key in entries then entries[key := entries[key].(payload := Some(Dump(output)), original := original)]
    else entries[key := Entry(Some(Dump(output)), original, 0)]
  }

  /** What is put under a key is what the next lookup returns; other keys are untouched. */
  lemma PutThenGet(taxonomy: Taxonomy, entries: Entries, key: CacheKey, output: Output, original: Method, other: CacheKey)
    requires other == key ==> Valid(taxonomy, output)
    ensures Lookup(taxonomy, Put(entries, key, output, original), other)
         == if other == key then Some(output) else Lookup(taxonomy, entries, other)
  {}
}
