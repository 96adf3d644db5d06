/**
 * The graph-extraction prompt: the values `get_extraction_prompt` substitutes into its fixed
 * Cypher-extraction template, with their defaults, list joins and truncation.
 */
module GraphPrompts {
  import opened Wrappers
  import opened JsonValue
  import opened Strings

  /** Longest chunk text put into the prompt. */
  const MaxTextLength: nat := 1500
  /** Longest summary put into the prompt. */
  const MaxSummaryLength: nat := 500

  /**
   * The seven values `format` substitutes into the extraction template. The template's own wording
   * is fixed, so two prompts are equal exactly when these fields are.
   */
  datatype PromptFields = PromptFields(
    text: string,
    summary: string,
    country: string,
    policyType: string,
    clauseType: string,
    keywords: string,
    requirements: string)

  /** `metadata or {}`: every falsy value stands for the empty dict; `.get` on any other non-dict raises. */
  function MetaOf(metadata: Value): Outcome<Object> {
    if !Truthy(metadata) then Returned(map[])
    else if metadata.Dict? then Returned(metadata.fields)
    else Raised(NoGetMessage(metadata))
  }

  /** `str(e)` of the `TypeError` `join` raises at item `i`, which is not a string. */
  function JoinItemError(i: nat, item: Value, repr: Value -> string): string {
    "sequence item " + Text(Int(i), repr) + ": expected str instance, " + TypeName(item) + " found"
  }

  /**
   * The strings of `items[i..]`, read left to right as `join` reads them, or the `TypeError` it
   * raises at the first item that is not a string.
   */
  function StrsFrom(items: seq<Value>, i: nat, repr: Value -> string): Outcome<seq<string>>
    requires i <= |items|
    decreases |items| - i
  {
    if i == |items| then Returned([])
    else if !items[i].Str? then Raised(JoinItemError(i, items[i], repr))
    else
      match StrsFrom(items, i + 1, repr)
      case Returned(rest) => Returned([items[i].s] + rest)
      case Raised(m) => Raised(m)
  }

  /** `sep.join(v) if isinstance(v, list) else str(v)`. */
  function Joined(v: Value, sep: string, repr: Value -> string): Outcome<string> {
    if v.List? then
      match StrsFrom(v.items, 0, repr)
      case Returned(strs) => Returned(Join(strs, sep))
      case Raised(m) => Raised(m)
    else Returned(Text(v, repr))
  }

  /** `str(e)` of the `TypeError` `len` raises on a value without a length. */
  function NoLenMessage(v: Value): string {
    "object of type '" + TypeName(v) + "' has no len()"
  }

  /** `str(e)` of the `TypeError` raised when a dict is sliced. */
  const SliceDictMessage: string := "unhashable type: 'slice'"

  /**
   * `v[:limit] if len(v) > limit else v`, then rendered by `format`: a string or a list is cut to
   * its first `limit` elements, a longer dict cannot be sliced, and a value without a length raises.
   */
  function Truncated(v: Value, limit: nat, repr: Value -> string): Outcome<string> {
    match v
    case Str(s) => Returned(Take(s, limit))
    case List(xs) => Returned(Text(List(Take(xs, limit)), repr))
    case Dict(m) => if |m| > limit then Raised(SliceDictMessage) else Returned(Text(v, repr))
    case _ => Raised(NoLenMessage(v))
  }

  /**
   * `get_extraction_prompt(text, metadata)`: the substituted values, or the exception raised while
   * computing them (in evaluation order: the metadata lookup, the keyword join, the requirement
   * join, the text cut, the summary cut).
   */
  function ExtractionPrompt(text: Value, metadata: Value, repr: Value -> string): Outcome<PromptFields> {
    match MetaOf(metadata)
    case Raised(m) => Raised(m)
    case Returned(meta) =>
      var country := Text(Get(meta, "country", Str("Unknown")), repr);
      var policyType := Text(Get(meta, "policy_type", Str("General")), repr);
      var clauseType := Text(Get(meta, "clause_type", Str("Requirement")), repr);
      match Joined(Get(meta, "keywords", List([])), ", ", repr)
      case Raised(m) => Raised(m)
      case Returned(keywords) =>
        match Joined(Get(meta, "extracted_requirements", List([])), "; ", repr)
        case Raised(m) => Raised(m)
        case Returned(requirements) =>
          match Truncated(text, MaxTextLength, repr)
          case Raised(m) => Raised(m)
          case Returned(truncated) =>
            match Truncated(Get(meta, "summary", Str("")), MaxSummaryLength, repr)
            case Raised(m) => Raised(m)
            case Returned(summary) =>
              Returned(PromptFields(truncated, summary, country, policyType, clauseType, keywords, requirements))
  }

  /** The defaults: the prompt built when the metadata is None (or empty, or any falsy value). */
  function DefaultFields(text: string): PromptFields {
    PromptFields(Take(text, MaxTextLength), "", "Unknown", "General", "Requirement", "", "")
  }

  // ----- the joins -----

  /** `join` succeeds exactly when every item from `i` on is a string, and then yields their texts in order. */
  lemma {:induction false} StrsFromReturned(items: seq<Value>, i: nat, repr: Value -> string)
    requires i <= |items|
    ensures StrsFrom(items, i, repr).Returned? <==> forall j :: i <= j < |items| ==> items[j].Str?
    ensures StrsFrom(items, i, repr).Returned? ==>
      |StrsFrom(items, i, repr).value| == |items| - i &&
      forall j :: i <= j < |items| ==> StrsFrom(items, i, repr).value[j - i] == items[j].s
    decreases |items| - i
  {
    if i < |items| {
      StrsFromReturned(items, i + 1, repr);
    }
  }

  /** When `join` raises, it names the first item that is not a string: every item before it is one. */
  lemma {:induction false} StrsFromRaised(items: seq<Value>, i: nat, repr: Value -> string)
    requires i <= |items| && StrsFrom(items, i, repr).Raised?
    ensures exists j :: (i <= j < |items| && !items[j].Str? &&
                         (forall k :: i <= k < j ==> items[k].Str?) &&
                         StrsFrom(items, i, repr).message == JoinItemError(j, items[j], repr))
    decreases |items| - i
  {
    if items[i].Str? {
      StrsFromRaised(items, i + 1, repr);
      var j :| i + 1 <= j < |items| && !items[j].Str? && (forall k :: i + 1 <= k < j ==> items[k].Str?) &&
               StrsFrom(items, i + 1, repr).message == JoinItemError(j, items[j], repr);
      assert StrsFrom(items, i, repr) == StrsFrom(items, i + 1, repr);
      assert forall k :: i <= k < j ==> items[k].Str?;
    } else {
      assert !items[i].Str? && StrsFrom(items, i, repr).message == JoinItemError(i, items[i], repr);
    }
  }

  /** A list of strings joins to its items with `sep` between them; anything else is stringified. */
  lemma {:induction false} JoinedStrings(strs: seq<string>, sep: string, repr: Value -> string)
    ensures Joined(List(seq(|strs|, i requires 0 <= i < |strs| => Str(strs[i]))), sep, repr) ==
      Returned(Join(strs, sep))
  {
    var items := seq(|strs|, i requires 0 <= i < |strs| => Str(strs[i]));
    assert forall j :: 0 <= j < |items| ==> items[j] == Str(strs[j]);
    StrsFromReturned(items, 0, repr);
    var r := StrsFrom(items, 0, repr).value;
    assert |r| == |strs| && forall j :: 0 <= j < |strs| ==> r[j] == strs[j];
    assert r == strs;
  }

  // ----- get_extraction_prompt -----

  /** A falsy metadata value is treated as `{}`: every field takes its default and the text is cut to 1500. */
  lemma {:induction false} FalsyMetadataDefaults(text: string, metadata: Value, repr: Value -> string)
    requires !Truthy(metadata)
    ensures ExtractionPrompt(Str(text), metadata, repr) == Returned(DefaultFields(text))
  {
    assert StrsFrom([], 0, repr) == Returned([]);
  }

  /** A dict without any of the six keys gives the same prompt as no metadata at all. */
  lemma {:induction false} AbsentKeysDefault(text: string, meta: Object, repr: Value -> string)
    requires meta != map[]
    requires "country" !in meta && "policy_type" !in meta && "clause_type" !in meta
    requires "summary" !in meta && "keywords" !in meta && "extracted_requirements" !in meta
    ensures ExtractionPrompt(Str(text), Dict(meta), repr) == Returned(DefaultFields(text))
  {
    assert StrsFrom([], 0, repr) == Returned([]);
  }

  /** A truthy metadata value that is not a dict makes `.get` raise. */
  lemma {:induction false} NonDictMetadataRaises(text: Value, metadata: Value, repr: Value -> string)
    requires Truthy(metadata) && !metadata.Dict?
    ensures ExtractionPrompt(text, metadata, repr) == Raised(NoGetMessage(metadata))
  {
  }

  /**
   * The inserted text is the first 1500 characters of `text`: a text within the limit is inserted
   * unchanged, a longer one is cut to exactly 1500.
   */
  lemma {:induction false} TextTruncated(text: string, metadata: Value, repr: Value -> string)
    requires ExtractionPrompt(Str(text), metadata, repr).Returned?
    ensures var t := ExtractionPrompt(Str(text), metadata, repr).value.text;
      StartsWith(text, t) && (|text| <= MaxTextLength ==> t == text) &&
      (|text| > MaxTextLength ==> |t| == MaxTextLength)
  {
  }

  /** The inserted summary is the first 500 characters of a string summary. */
  lemma {:induction false} SummaryTruncated(text: Value, meta: Object, summary: string, repr: Value -> string)
    requires meta != map[] && "summary" in meta && meta["summary"] == Str(summary)
    requires ExtractionPrompt(text, Dict(meta), repr).Returned?
    ensures var s := ExtractionPrompt(text, Dict(meta), repr).value.summary;
      StartsWith(summary, s) && |s| == (if |summary| <= MaxSummaryLength then |summary| else MaxSummaryLength)
  {
  }

  /**
   * Keywords given as a list of strings are joined with ", " and requirements with "; "; the prompt
   * is then built whenever the text and the summary are strings.
   */
  lemma {:induction false} ListsJoined(text: string, meta: Object, keywords: seq<string>,
                                       requirements: seq<string>, repr: Value -> string)
    requires meta != map[] && Get(meta, "summary", Str("")).Str?
    requires "keywords" in meta && meta["keywords"] == List(seq(|keywords|, i requires 0 <= i < |keywords| => Str(keywords[i])))
    requires "extracted_requirements" in meta &&
      meta["extracted_requirements"] == List(seq(|requirements|, i requires 0 <= i < |requirements| => Str(requirements[i])))
    ensures ExtractionPrompt(Str(text), Dict(meta), repr).Returned?
    ensures ExtractionPrompt(Str(text), Dict(meta), repr).value.keywords == Join(keywords, ", ")
    ensures ExtractionPrompt(Str(text), Dict(meta), repr).value.requirements == Join(requirements, "; ")
  {
    JoinedStrings(keywords, ", ", repr);
    JoinedStrings(requirements, "; ", repr);
  }

  /** A keyword list holding a non-string raises the `TypeError` naming its first such item. */
  lemma {:induction false} KeywordItemRaises(text: Value, meta: Object, repr: Value -> string)
    requires meta != map[] && "keywords" in meta && meta["keywords"].List?
    requires exists j :: 0 <= j < |meta["keywords"].items| && !meta["keywords"].items[j].Str?
    ensures ExtractionPrompt(text, Dict(meta), repr).Raised?
    ensures exists j :: (0 <= j < |meta["keywords"].items| && !meta["keywords"].items[j].Str? &&
                         ExtractionPrompt(text, Dict(meta), repr).message ==
                           JoinItemError(j, meta["keywords"].items[j], repr))
  {
    var items := meta["keywords"].items;
    StrsFromReturned(items, 0, repr);
    StrsFromRaised(items, 0, repr);
  }
}
