/** Mapping user and article category names to the article taxonomy. */
module Categories {
  import opened Text
  import opened Wrappers

  predicate IsCanonical(category: string) {
    category in {
      "automotive", "electronics", "chemicals", "raw_materials", "metals_mining", "energy", "manufacturing",
      "logistics", "packaging", "construction", "food_agriculture", "pharma_healthcare", "aerospace_defense",
      "retail_consumer", "technology", "finance", "labor", "geopolitical", "sustainability", "regulatory",
      "general"
    }
  }

  /** The category an alias stands for. */
  function Alias(key: string): Option<string> {
    if key in {
      "auto", "automobile", "automobiles", "car", "cars", "ev", "evs", "vehicle", "vehicles"
    } then Some("automotive")
    else if key in {
      "chip", "chips", "electronic", "semiconductor", "semiconductors"
    } then Some("electronics")
    else if key in {
      "tech", "software", "saas", "cloud", "artificial intelligence", "ai"
    } then Some("technology")
    else if key in {
      "chemical"
    } then Some("chemicals")
    else if key in {
      "commodity", "commodities", "raw material", "raw materials", "critical material", "critical materials"
    } then Some("raw_materials")
    else if key in {
      "metal", "metals", "mining", "critical mineral", "critical minerals", "lithium", "copper", "steel"
    } then Some("metals_mining")
    else if key in {
      "freight", "shipping", "supply chain", "supply_chain", "transport", "transportation"
    } then Some("logistics")
    else if key in {
      "factory", "factories", "industrial", "industry"
    } then Some("manufacturing")
    else if key in {
      "pack", "packaging", "container", "containers"
    } then Some("packaging")
    else if key in {
      "building", "construction", "infrastructure"
    } then Some("construction")
    else if key in {
      "agriculture", "agri", "food", "farming", "crop", "crops"
    } then Some("food_agriculture")
    else if key in {
      "pharma", "pharmaceutical", "pharmaceuticals", "healthcare", "medical"
    } then Some("pharma_healthcare")
    else if key in {
      "aerospace", "defence", "defense"
    } then Some("aerospace_defense")
    else if key in {
      "consumer", "retail"
    } then Some("retail_consumer")
    else if key in {
      "finance", "financial", "currency", "fx"
    } then Some("finance")
    else if key in {
      "labor", "labour", "workforce"
    } then Some("labor")
    else if key in {
      "geopolitical", "geopolitics", "war", "conflict"
    } then Some("geopolitical")
    else if key in {
      "sustainability", "climate", "emissions", "esg"
    } then Some("sustainability")
    else if key in {
      "compliance", "legal", "regulation", "regulations"
    } then Some("regulatory")
    else if key in {
      "oil", "gas", "power", "renewable", "renewables", "utility", "utilities"
    } then Some("energy")
    else None
  }

  /** The keyword table, one topic a row, in its order. */
  const TOPICS := 20

  function Category(topic: nat): string {
    match topic
    case 0 => "automotive"
    case 1 => "electronics"
    case 2 => "technology"
    case 3 => "chemicals"
    case 4 => "raw_materials"
    case 5 => "metals_mining"
    case 6 => "energy"
    case 7 => "manufacturing"
    case 8 => "logistics"
    case 9 => "packaging"
    case 10 => "construction"
    case 11 => "food_agriculture"
    case 12 => "pharma_healthcare"
    case 13 => "aerospace_defense"
    case 14 => "retail_consumer"
    case 15 => "finance"
    case 16 => "labor"
    case 17 => "geopolitical"
    case 18 => "sustainability"
    case _ => "regulatory"
  }

  predicate Keyword(topic: nat, word: string) {
    match topic
    case 0 => word in {
      "auto", "automobile", "automotive", "car", "cars", "ev", "fleet", "mobility", "vehicle", "vehicles"
    }
    case 1 => word in {
      "chip", "chips", "electronics", "hardware", "memory", "semiconductor", "semiconductors"
    }
    case 2 => word in {
      "ai", "artificial", "cloud", "cybersecurity", "data", "digital", "saas", "software", "tech", "technology"
    }
    case 3 => word in {
      "chemical", "chemicals", "fertilizer", "plastics", "polymer", "resin"
    }
    case 4 => word in {
      "commodities", "commodity", "material", "materials", "raw", "shortage"
    }
    case 5 => word in {
      "aluminum", "copper", "critical", "lithium", "metal", "metals", "mineral", "minerals", "mining", "nickel",
      "rare", "steel"
    }
    case 6 => word in {
      "battery", "electricity", "energy", "gas", "oil", "power", "renewable", "renewables", "solar", "utility",
      "wind"
    }
    case 7 => word in {
      "factories", "factory", "industrial", "industry", "manufacturing", "plant", "production"
    }
    case 8 => word in {
      "cargo", "freight", "logistics", "port", "shipping", "supply", "transport", "transportation", "warehouse"
    }
    case 9 => word in {
      "bottle", "box", "container", "containers", "pack", "packaging", "pallet", "paper"
    }
    case 10 => word in {
      "building", "cement", "construction", "infrastructure", "lumber", "project"
    }
    case 11 => word in {
      "agriculture", "crop", "crops", "farm", "farming", "food", "grain", "wheat"
    }
    case 12 => word in {
      "drug", "healthcare", "medical", "medicine", "pharma", "pharmaceutical", "pharmaceuticals"
    }
    case 13 => word in {
      "aerospace", "aircraft", "aviation", "defence", "defense", "military"
    }
    case 14 => word in {
      "consumer", "demand", "retail", "store", "stores"
    }
    case 15 => word in {
      "currency", "finance", "financial", "fx", "inflation", "rate", "rates"
    }
    case 16 => word in {
      "labor", "labour", "strike", "union", "wage", "workforce"
    }
    case 17 => word in {
      "conflict", "geopolitical", "geopolitics", "military", "sanctions", "war"
    }
    case 18 => word in {
      "carbon", "climate", "emissions", "esg", "sustainability", "sustainable"
    }
    case _ => word in {
      "compliance", "law", "legal", "policy", "regulation", "regulations", "regulatory", "rules", "sanctions",
      "tariff", "trade"
    }
  }

  function SpaceChar(c: char): char {
    if c == '-' || c == '_' then ' ' else c
  }

  function SpaceOut(s: string): string {
    seq(|s|, i requires 0 <= i < |s| => SpaceChar(s[i]))
  }

  /** A stable lower-case key for category matching. */
  function NormalizeCategoryKey(value: string): string {
    Join(Split(SpaceOut(Lower(Strip(value)))))
  }

  /** How many distinct words of the key are keywords of the topic. */
  function Score(words: set<string>, topic: nat): nat {
    |set w | w in words && Keyword(topic, w)|
  }

  /** The first of the best-scoring topics among the first n. */
  function Best(words: set<string>, n: nat): (best: nat)
    requires n > 0
    ensures best < n
    ensures forall topic :: 0 <= topic < n ==> Score(words, topic) <= Score(words, best)
    ensures forall topic :: 0 <= topic < best ==> Score(words, topic) < Score(words, best)
  {
    if n == 1 then 0
    else
      var best := Best(words, n - 1);
      if Score(words, n - 1) > Score(words, best) then n - 1 else best
  }

  function CanonicalCategory(value: string): string {
    var key := NormalizeCategoryKey(value);
    if IsCanonical(key) then key
    else if Alias(key).Some? then Alias(key).value
    else
      var words := set w | w in Split(key);
      var best := Best(words, TOPICS);
      if Score(words, best) > 0 then Category(best) else key
  }

  /** Characters the key normalisation leaves alone. */
  predicate Clean(s: string) {
    forall i :: 0 <= i < |s| ==> LowerChar(s[i]) == s[i] && s[i] != '-' && s[i] != '_'
  }

  lemma CleanIsFixed(s: string)
    requires Clean(s)
    ensures Lower(s) == s && SpaceOut(s) == s
  {}

  lemma KeyIsClean(value: string)
    ensures Clean(NormalizeCategoryKey(value))
  {
    var spaced := SpaceOut(Lower(Strip(value)));
    assert Clean(spaced);
    var key := NormalizeCategoryKey(value);
    forall i | 0 <= i < |key| ensures LowerChar(key[i]) == key[i] && key[i] != '-' && key[i] != '_' {
      JoinChars(Split(spaced), key[i]);
      SplitChars(spaced, key[i]);
    }
  }

  lemma KeyOfCleanWords(words: seq<string>)
    requires (forall w :: w in words ==> Word(w)) && Clean(Join(words))
    ensures NormalizeCategoryKey(Join(words)) == Join(words)
  {
    JoinedIsStripped(words);
    CleanIsFixed(Join(words));
    SplitJoin(words);
  }

  lemma KeyIdempotent(value: string)
    ensures NormalizeCategoryKey(NormalizeCategoryKey(value)) == NormalizeCategoryKey(value)
  {
    KeyIsClean(value);
    KeyOfCleanWords(Split(SpaceOut(Lower(Strip(value)))));
  }

  predicate Letters(w: string) {
    w != "" && forall i :: 0 <= i < |w| ==> 'a' <= w[i] <= 'z'
  }

  lemma KeyOfWord(w: string)
    requires Letters(w)
    ensures NormalizeCategoryKey(w) == w
  {
    assert Join([w]) == w;
    KeyOfCleanWords([w]);
  }

  lemma PairIsSpacedOut(a: string, b: string)
    requires Letters(a) && Letters(b)
    ensures SpaceOut(Lower(a + "_" + b)) == a + " " + b
  {}

  lemma PairIsStripped(a: string, b: string)
    requires Letters(a) && Letters(b)
    ensures Strip(a + "_" + b) == a + "_" + b
  {
    var name := a + "_" + b;
    assert name[0] == a[0] && name[|name| - 1] == b[|b| - 1];
    StripOfStripped(name);
  }

  lemma KeyOfPair(a: string, b: string)
    requires Letters(a) && Letters(b)
    ensures NormalizeCategoryKey(a + "_" + b) == a + " " + b
    ensures Split(a + " " + b) == [a, b]
  {
    PairIsStripped(a, b);
    PairIsSpacedOut(a, b);
    SplitPair(a, b);
  }

  lemma SplitPair(a: string, b: string)
    requires Word(a) && Word(b)
    ensures Split(a + " " + b) == [a, b] && Join([a, b]) == a + " " + b
  {
    assert [a, b][1..] == [b];
    assert Join([a, b]) == a + " " + b;
    SplitJoin([a, b]);
  }

  /** Neither lower-casing nor canonicalising changes the name. */
  predicate Unchanged(category: string) {
    Lower(category) == category && CanonicalCategory(category) == category
  }

  lemma PairIsLower(a: string, b: string)
    requires Letters(a) && Letters(b)
    ensures Lower(a + "_" + b) == a + "_" + b
  {}

  lemma WordIsUnchanged(w: string)
    requires Letters(w) && IsCanonical(w)
    ensures Unchanged(w)
  {
    hide IsCanonical;
    KeyOfWord(w);
    CleanIsFixed(w);
  }

  /** A canonical name of two words comes back through the alias table ... */
  lemma FixedByAlias(a: string, b: string)
    requires Letters(a) && Letters(b) && !IsCanonical(a + " " + b) && Alias(a + " " + b) == Some(a + "_" + b)
    ensures Unchanged(a + "_" + b)
  {
    hide IsCanonical, Alias, Letters;
    PairIsLower(a, b);
    KeyOfPair(a, b);
  }

  lemma PairScore(a: string, b: string, topic: nat)
    requires a != b
    ensures Score({a, b}, topic) <= 2
    ensures Score({a, b}, topic) == 2 <==> Keyword(topic, a) && Keyword(topic, b)
  {
    hide Keyword;
    var words := {a, b};
    var hits := set w | w in words && Keyword(topic, w);
    assert Score(words, topic) == |hits|;
    if Keyword(topic, a) && Keyword(topic, b) {
      assert hits == {a, b};
    } else if Keyword(topic, a) {
      assert hits == {a};
    } else if Keyword(topic, b) {
      assert hits == {b};
    } else {
      assert hits == {};
    }
  }

  /** ... or through the one topic that has both its words, when no earlier topic has them both. */
  lemma FixedByTopic(a: string, b: string, topic: nat)
    requires Letters(a) && Letters(b) && a != b && !IsCanonical(a + " " + b) && Alias(a + " " + b).None?
    requires topic < TOPICS && Category(topic) == a + "_" + b
    requires Keyword(topic, a) && Keyword(topic, b)
    requires forall t: nat :: t < topic ==> !(Keyword(t, a) && Keyword(t, b))
    ensures Unchanged(a + "_" + b)
  {
    hide IsCanonical, Alias, Keyword, Category, Letters, Score;
    PairIsLower(a, b);
    KeyOfPair(a, b);
    var words := set w | w in Split(a + " " + b);
    assert words == {a, b} by { assert [a, b][0] == a && [a, b][1] == b; }
    forall t: nat ensures Score(words, t) <= 2 && (Score(words, t) == 2 <==> Keyword(t, a) && Keyword(t, b)) {
      PairScore(a, b, t);
    }
    assert Best(words, TOPICS) == topic;
  }

  lemma RawMaterialsIsFixed()
    ensures Unchanged("raw_materials")
  {
    assert "raw" + "_" + "materials" == "raw_materials" && "raw" + " " + "materials" == "raw materials";
    FixedByAlias("raw", "materials");
  }

  /** The two-word names no alias maps to, with the topic that has both words. */
  datatype TopicPair = TopicPair(name: string, first: string, second: string, topic: nat)

  const TOPIC_PAIRS: seq<TopicPair> := [
    TopicPair("metals_mining", "metals", "mining", 5), TopicPair("food_agriculture", "food", "agriculture", 11),
    TopicPair("pharma_healthcare", "pharma", "healthcare", 12), TopicPair("aerospace_defense", "aerospace", "defense", 13),
    TopicPair("retail_consumer", "retail", "consumer", 14)]

  const TOPIC_NAMES := {"metals_mining", "food_agriculture", "pharma_healthcare", "aerospace_defense", "retail_consumer"}

  function PairOf(category: string): (pair: TopicPair)
    requires category in TOPIC_NAMES
    ensures pair in TOPIC_PAIRS && pair.name == category
  {
    if category == "metals_mining" then TOPIC_PAIRS[0]
    else if category == "food_agriculture" then TOPIC_PAIRS[1]
    else if category == "pharma_healthcare" then TOPIC_PAIRS[2]
    else if category == "aerospace_defense" then TOPIC_PAIRS[3]
    else TOPIC_PAIRS[4]
  }

  lemma SpacedPair(pair: TopicPair)
    requires pair in TOPIC_PAIRS
    ensures pair.first + " " + pair.second in {"metals mining", "food agriculture", "pharma healthcare", "aerospace defense", "retail consumer"}
  {
    assert "metals" + " " + "mining" == "metals mining";
    assert "food" + " " + "agriculture" == "food agriculture";
    assert "pharma" + " " + "healthcare" == "pharma healthcare";
    assert "aerospace" + " " + "defense" == "aerospace defense";
    assert "retail" + " " + "consumer" == "retail consumer";
  }

  lemma SpacedIsNotCanonical(key: string)
    requires key in {"metals mining", "food agriculture", "pharma healthcare", "aerospace defense", "retail consumer"}
    ensures !IsCanonical(key)
  {}

  lemma IndustryPairIsNoAlias(key: string)
    requires key in {"metals mining", "aerospace defense"}
    ensures Alias(key).None?
  {}

  lemma ConsumerPairIsNoAlias(key: string)
    requires key in {"food agriculture", "retail consumer"}
    ensures Alias(key).None?
  {}

  lemma PharmaPairIsNoAlias(key: string)
    requires key == "pharma healthcare"
    ensures Alias(key).None?
  {}

  lemma SpacedIsNoAlias(key: string)
    requires key in {"metals mining", "food agriculture", "pharma healthcare", "aerospace defense", "retail consumer"}
    ensures Alias(key).None?
  {
    hide Alias;
    if key in {"metals mining", "aerospace defense"} {
      IndustryPairIsNoAlias(key);
    } else if key == "pharma healthcare" {
      PharmaPairIsNoAlias(key);
    } else {
      ConsumerPairIsNoAlias(key);
    }
  }

  lemma PairHasItsTopic(pair: TopicPair)
    requires pair in TOPIC_PAIRS
    ensures Keyword(pair.topic, pair.first) && Keyword(pair.topic, pair.second)
  {}

  lemma NoEarlierTopic(pair: TopicPair)
    requires pair in TOPIC_PAIRS
    ensures forall t: nat :: t < pair.topic ==> !(Keyword(t, pair.first) && Keyword(t, pair.second))
  {}

  lemma PairNamesItsTopic(pair: TopicPair)
    requires pair in TOPIC_PAIRS
    ensures pair.topic < TOPICS && Category(pair.topic) == pair.name
  {}

  lemma PairIsJoined(pair: TopicPair)
    requires pair in TOPIC_PAIRS
    ensures pair.first + "_" + pair.second == pair.name && pair.first != pair.second
  {
    hide Category;
    assert "metals" + "_" + "mining" == "metals_mining";
    assert "food" + "_" + "agriculture" == "food_agriculture";
    assert "pharma" + "_" + "healthcare" == "pharma_healthcare";
    assert "aerospace" + "_" + "defense" == "aerospace_defense";
    assert "retail" + "_" + "consumer" == "retail_consumer";
  }

  lemma PairIsSpelled(pair: TopicPair)
    requires pair in TOPIC_PAIRS
    ensures Letters(pair.first) && Letters(pair.second)
  {}

  lemma TopicPairIsFixed(pair: TopicPair)
    requires pair in TOPIC_PAIRS
    ensures Unchanged(pair.name)
  {
    hide IsCanonical, Alias, Keyword, Unchanged, Category, Letters;
    SpacedPair(pair);
    SpacedIsNotCanonical(pair.first + " " + pair.second);
    SpacedIsNoAlias(pair.first + " " + pair.second);
    PairHasItsTopic(pair);
    NoEarlierTopic(pair);
    PairNamesItsTopic(pair);
    PairIsJoined(pair);
    PairIsSpelled(pair);
    FixedByTopic(pair.first, pair.second, pair.topic);
  }

  lemma IndustryName(category: string)
    requires category in {"automotive", "electronics", "chemicals", "energy", "manufacturing"}
    ensures Letters(category)
  {}

  lemma ServiceName(category: string)
    requires category in {"logistics", "packaging", "construction", "technology", "finance"}
    ensures Letters(category)
  {}

  lemma TopicName(category: string)
    requires category in {"labor", "geopolitical", "sustainability", "regulatory", "general"}
    ensures Letters(category)
  {}

  lemma SingleWordName(category: string)
    requires IsCanonical(category)
    requires category != "raw_materials" && category !in TOPIC_NAMES
    ensures Letters(category)
  {
    hide Letters;
    if category in {"automotive", "electronics", "chemicals", "energy", "manufacturing"} {
      IndustryName(category);
    } else if category in {"logistics", "packaging", "construction", "technology", "finance"} {
      ServiceName(category);
    } else {
      TopicName(category);
    }
  }

  /** The taxonomy's own names are fixed points, although normalisation turns their underscores into spaces. */
  lemma CanonicalIsFixed(category: string)
    requires IsCanonical(category)
    ensures Unchanged(category)
  {
    hide IsCanonical, Unchanged, Letters;
    if category == "raw_materials" {
      RawMaterialsIsFixed();
    } else if category in TOPIC_NAMES {
      TopicPairIsFixed(PairOf(category));
    } else {
      SingleWordName(category);
      WordIsUnchanged(category);
    }
  }

  lemma TablesNameCanonicalCategories()
    ensures forall key :: Alias(key).Some? ==> IsCanonical(Alias(key).value)
    ensures forall topic :: IsCanonical(Category(topic))
  {}

  /** Canonicalising twice is canonicalising once, on every string. */
  lemma CanonicalCategoryIdempotent(value: string)
    ensures CanonicalCategory(CanonicalCategory(value)) == CanonicalCategory(value)
  {
    TablesNameCanonicalCategories();
    hide IsCanonical, Alias, Category, Score;
    KeyIdempotent(value);
    if IsCanonical(CanonicalCategory(value)) {
      CanonicalIsFixed(CanonicalCategory(value));
    }
  }

  /** How many of the key's words belong to the topic. */
  ghost function SharedWords(key: string, topic: nat): nat {
    |set w | w in Split(key) && Keyword(topic, w)|
  }

  lemma SharedIsScore(key: string, words: set<string>, topic: nat)
    requires words == set w | w in Split(key)
    ensures SharedWords(key, topic) == Score(words, topic)
    ensures SharedWords(key, topic) > 0 <==> exists w :: w in Split(key) && Keyword(topic, w)
  {
    hide Split, Keyword;
    var hits := set w | w in Split(key) && Keyword(topic, w);
    assert hits == set w | w in words && Keyword(topic, w);
    if w :| w in Split(key) && Keyword(topic, w) {
      assert w in hits;
    } else {
      assert hits == {};
    }
  }

  /** The first of the topics that share the most words with the key. */
  ghost predicate SharesMost(key: string, topic: nat) {
    && topic < 20
    && (forall t: nat :: t < 20 ==> SharedWords(key, t) <= SharedWords(key, topic))
    && (forall t: nat :: t < topic ==> SharedWords(key, t) < SharedWords(key, topic))
  }

  lemma BestSharesMost(key: string, words: set<string>)
    requires words == set w | w in Split(key)
    ensures SharesMost(key, Best(words, TOPICS))
  {
    hide Split, Keyword, Score, SharedWords;
    forall t: nat ensures SharedWords(key, t) == Score(words, t) {
      SharedIsScore(key, words, t);
    }
  }

  lemma SpacedExactly(text: string)
    ensures |SpaceOut(Lower(text))| == |text|
    ensures forall i :: 0 <= i < |text| ==>
              SpaceOut(Lower(text))[i] ==
                if text[i] == '-' || text[i] == '_' then ' '
                else if 'A' <= text[i] <= 'Z' then text[i] - 'A' + 'a' else text[i]
  {}

  /** What a category is mapped to. Its key is its words in lower case, with hyphens and underscores
      taken for spaces, one space between them. A canonical key stays, an alias is replaced, and any
      other key goes to the first of the topics that share the most of its words, or stays if none do. */
  lemma CategoryMeans(value: string) returns (spaced: string, key: string, topic: nat)
    ensures |spaced| == |Strip(value)| && forall i :: 0 <= i < |spaced| ==>
              spaced[i] == if Strip(value)[i] == '-' || Strip(value)[i] == '_' then ' '
                           else if 'A' <= Strip(value)[i] <= 'Z' then Strip(value)[i] - 'A' + 'a' else Strip(value)[i]
    ensures key == Join(Split(spaced))
    ensures IsCanonical(key) ==> CanonicalCategory(value) == key
    ensures !IsCanonical(key) && Alias(key).Some? ==> CanonicalCategory(value) == Alias(key).value
    ensures SharesMost(key, topic)
    ensures !IsCanonical(key) && Alias(key).None? ==>
              CanonicalCategory(value) == if exists w :: w in Split(key) && Keyword(topic, w) then Category(topic) else key
  {
    spaced := SpaceOut(Lower(Strip(value)));
    key := Join(Split(spaced));
    assert key == NormalizeCategoryKey(value);
    SpacedExactly(Strip(value));
    hide Strip, SpaceOut, Lower, NormalizeCategoryKey, IsCanonical, Alias, Keyword, Category, Split, Join, Score, SharedWords, SharesMost;
    var words := set w | w in Split(key);
    topic := Best(words, TOPICS);
    BestSharesMost(key, words);
    SharedIsScore(key, words, topic);
  }

  function Canonicalised(values: seq<string>): seq<string> {
    seq(|values|, i requires 0 <= i < |values| => CanonicalCategory(values[i]))
  }

  lemma PickedCategories(values: seq<string>)
    ensures PickedFrom(seq(|values|, i requires 0 <= i < |values| => CanonicalCategory(values[i])), Deduped(Canonicalised(values)))
  {
    hide CanonicalCategory;
    assert Canonicalised(values) == seq(|values|, i requires 0 <= i < |values| => CanonicalCategory(values[i]));
    var at := DedupedPicks(Canonicalised(values));
  }

  /** Canonical categories in input order, each once. */
  method CanonicalCategoryList(values: seq<string>) returns (normalized: seq<string>)
    ensures normalized == Deduped(Canonicalised(values))
    ensures PickedFrom(seq(|values|, i requires 0 <= i < |values| => CanonicalCategory(values[i])), normalized)
  {
    hide CanonicalCategory, PickedFrom;
    PickedCategories(values);
    normalized := [];
    for i := 0 to |values|
      invariant normalized == Deduped(Canonicalised(values)[..i])
    {
      assert Canonicalised(values)[..i + 1][..i] == Canonicalised(values)[..i];
      var category := CanonicalCategory(values[i]);
      if category != "" && category !in normalized {
        normalized := normalized + [category];
      }
    }
    assert Canonicalised(values)[..|values|] == Canonicalised(values);
  }

  /** A canonical list is unchanged by canonicalising it again. */
  lemma CanonicalListIdempotent(values: seq<string>)
    ensures var once := Deduped(Canonicalised(values));
            Deduped(Canonicalised(once)) == once
  {
    var once := Deduped(Canonicalised(values));
    forall i | 0 <= i < |once| ensures CanonicalCategory(once[i]) == once[i] {
      assert once[i] in Canonicalised(values);
      var j :| 0 <= j < |values| && Canonicalised(values)[j] == once[i];
      CanonicalCategoryIdempotent(values[j]);
    }
    assert Canonicalised(once) == once;
    DedupedIsFixed(once);
  }
}
