/** Prompt enrichment for the chatbot: the knowledge categories a message
    touches, and the prompt assembled from the message, recent context,
    knowledge entries and the user's profile. The vector store's answers are
    parameters. */
module VectorSearch {
  import opened Wrappers
  import opened Text

  const GeneralCategory := "general"
  const ClosingSentence := "Based on all this context, please provide a helpful and personalized response."
  const ContextHeading := "Recent Context:\n"
  const KnowledgeHeading := "Relevant Information:\n"
  /** The profile section's opening, up to the preferences. */
  const ProfileHeading := "User Profile:\n- Preferences: "

  /** The topical categories, in the order they are listed. */
  datatype Topic = Accommodation | Reservation | Activities | Payment

  function TopicName(t: Topic): string {
    match t
    case Accommodation => "accommodation"
    case Reservation => "booking"
    case Activities => "activities"
    case Payment => "payment"
  }

  /** The two keywords that select a topic. */
  function Keywords(t: Topic): (string, string) {
    match t
    case Accommodation => ("quarto", "suite")
    case Reservation => ("reserva", "booking")
    case Activities => ("trilha", "trail")
    case Payment => ("pagamento", "payment")
  }

  /** The lowercased message contains one of the topic's keywords. */
  predicate Mentions(message: string, t: Topic) {
    Contains(Lower(message), Keywords(t).0) || Contains(Lower(message), Keywords(t).1)
  }

  /** Position of a category name in the fixed listing order. */
  function Rank(name: string): nat {
    if name == TopicName(Accommodation) then 0
    else if name == TopicName(Reservation) then 1
    else if name == TopicName(Activities) then 2
    else if name == TopicName(Payment) then 3
    else 4
  }

  /** One topic's contribution: its name when the lowercased message `low`
      holds one of its keywords. */
  function Piece(low: string, t: Topic): seq<string> {
    if Contains(low, Keywords(t).0) || Contains(low, Keywords(t).1) then [TopicName(t)] else []
  }

  /** The topical category names `extractCategories` collects, in order. */
  function Found(message: string): seq<string> {
    var low := Lower(message);
    Piece(low, Accommodation) + Piece(low, Reservation) + Piece(low, Activities) + Piece(low, Payment)
  }

  lemma {:induction false} FoundIsMentioned(message: string)
    ensures forall t: Topic :: TopicName(t) in Found(message) <==> Mentions(message, t)
    ensures GeneralCategory !in Found(message)
    ensures |Found(message)| == 0 <==> forall t: Topic :: !Mentions(message, t)
    ensures forall i, j :: 0 <= i < j < |Found(message)| ==> Rank(Found(message)[i]) < Rank(Found(message)[j])
  {
    var low := Lower(message);
    var a, b, c, d := Piece(low, Accommodation), Piece(low, Reservation), Piece(low, Activities), Piece(low, Payment);
    var all := a + b + c + d;
    PiecesAreRanked(a, b, c, d);
    assert GeneralCategory !in all by {
      assert Rank(GeneralCategory) == 4;
    }
    forall t: Topic ensures TopicName(t) in all <==> Mentions(message, t) {
      PieceIsMentioned(message, a, b, c, d, t);
    }
    assert |all| == |a| + |b| + |c| + |d|;
  }

  lemma {:induction false} PieceIsMentioned(message: string, a: seq<string>, b: seq<string>, c: seq<string>, d: seq<string>, t: Topic)
    requires a == Piece(Lower(message), Accommodation) && b == Piece(Lower(message), Reservation)
    requires c == Piece(Lower(message), Activities) && d == Piece(Lower(message), Payment)
    ensures TopicName(t) in a + b + c + d <==> Mentions(message, t)
  {
    var x := TopicName(t);
    assert x in a + b + c + d <==> x in a || x in b || x in c || x in d;
    match t
    case Accommodation =>
    case Reservation =>
    case Activities =>
    case Payment =>
  }

  /** Pieces of ranks 0 to 3 joined in order keep their ranks increasing. */
  lemma {:induction false} PiecesAreRanked(a: seq<string>, b: seq<string>, c: seq<string>, d: seq<string>)
    requires a == [] || a == [TopicName(Accommodation)]
    requires b == [] || b == [TopicName(Reservation)]
    requires c == [] || c == [TopicName(Activities)]
    requires d == [] || d == [TopicName(Payment)]
    ensures forall i, j :: 0 <= i < j < |a + b + c + d| ==> Rank((a + b + c + d)[i]) < Rank((a + b + c + d)[j])
    ensures forall i :: 0 <= i < |a + b + c + d| ==> Rank((a + b + c + d)[i]) < 4
  {
  }

  /** `extractCategories`. */
  function ExtractCategories(message: string): (r: seq<string>)
    ensures |r| > 0
    ensures forall t: Topic :: TopicName(t) in r <==> Mentions(message, t)
    ensures GeneralCategory in r <==> forall t: Topic :: !Mentions(message, t)
    ensures GeneralCategory in r ==> r == [GeneralCategory]
    ensures forall i, j :: 0 <= i < j < |r| ==> Rank(r[i]) < Rank(r[j])
  {
    FoundIsMentioned(message);
    var found := Found(message);
    if |found| == 0 then [GeneralCategory] else found
  }

  /** The categories depend only on the lowercased message: messages that
      differ in the case of ASCII letters get the same categories. */
  lemma {:induction false} CategoriesIgnoreCase(a: string, b: string)
    requires Lower(a) == Lower(b)
    ensures ExtractCategories(a) == ExtractCategories(b)
  {
  }

  /** Lowercasing a message first changes nothing. */
  lemma {:induction false} CategoriesOfLowercased(message: string)
    ensures ExtractCategories(Lower(message)) == ExtractCategories(message)
  {
    LowerIsIdempotent(message);
    CategoriesIgnoreCase(Lower(message), message);
  }

  /** An entry of the recent conversation context. */
  datatype ContextEntry = ContextEntry(role: string, content: string)

  /** An entry of the knowledge base. */
  datatype KnowledgeEntry = KnowledgeEntry(title: string, content: string)

  /** The user profile fields the prompt reads. The satisfaction score is
      kept as the text a template literal prints for it. */
  datatype UserProfile = UserProfile(
    preferences: Option<seq<string>>,
    communicationStyle: Option<string>,
    satisfactionScore: Option<string>)

  /** One numbered line, `<n>. <name>: <content>`. */
  function Line(n: nat, name: string, content: string): string {
    NatToString(n) + ". " + name + ": " + content + "\n"
  }

  /** The lines of a section, numbered from `from`. */
  function NumberedLines(items: seq<(string, string)>, from: nat): (r: string)
    ensures |items| == 0 <==> r == ""
  {
    if |items| == 0 then "" else Line(from, items[0].0, items[0].1) + NumberedLines(items[1..], from + 1)
  }

  /** Numbering continues across a split of the items. */
  lemma {:induction false} NumberedLinesAppend(a: seq<(string, string)>, b: seq<(string, string)>, from: nat)
    ensures NumberedLines(a + b, from) == NumberedLines(a, from) + NumberedLines(b, from + |a|)
    decreases |a|
  {
    if |a| > 0 {
      NumberedLinesAppend(a[1..], b, from + 1);
      NumberedLinesAppendStep(a, b, from);
    } else {
      assert a + b == b;
      assert NumberedLines(a, from) == "";
    }
  }

  /** One step of the induction: the first item of `a` leads both sides. */
  lemma {:induction false} NumberedLinesAppendStep(a: seq<(string, string)>, b: seq<(string, string)>, from: nat)
    requires |a| > 0
    requires NumberedLines(a[1..] + b, from + 1) == NumberedLines(a[1..], from + 1) + NumberedLines(b, from + 1 + |a[1..]|)
    ensures NumberedLines(a + b, from) == NumberedLines(a, from) + NumberedLines(b, from + |a|)
  {
    var first := Line(from, a[0].0, a[0].1);
    SplitHead(a, b);
    calc {
      NumberedLines(a + b, from);
      NumberedLines([a[0]] + (a[1..] + b), from);
      { NumberedLinesCons(a[0], a[1..] + b, from); }
      first + NumberedLines(a[1..] + b, from + 1);
      { assert from + 1 + |a[1..]| == from + |a|; }
      first + (NumberedLines(a[1..], from + 1) + NumberedLines(b, from + |a|));
      { Associate(first, NumberedLines(a[1..], from + 1), NumberedLines(b, from + |a|)); }
      first + NumberedLines(a[1..], from + 1) + NumberedLines(b, from + |a|);
      { NumberedLinesCons(a[0], a[1..], from); }
      NumberedLines(a, from) + NumberedLines(b, from + |a|);
    }
  }

  lemma {:induction false} SplitHead<T>(a: seq<T>, b: seq<T>)
    requires |a| > 0
    ensures a == [a[0]] + a[1..] && a + b == [a[0]] + (a[1..] + b)
  {
  }

  /** The first item is line `from`, the rest follow from `from + 1`. */
  lemma {:induction false} NumberedLinesCons(item: (string, string), rest: seq<(string, string)>, from: nat)
    ensures NumberedLines([item] + rest, from) == Line(from, item.0, item.1) + NumberedLines(rest, from + 1)
  {
    assert ([item] + rest)[0] == item && ([item] + rest)[1..] == rest;
  }

  /** The `k`-th item (from zero) is printed as line number `from + k`, right
      after the lines of the items before it. */
  lemma {:induction false} ItemIsNumbered(items: seq<(string, string)>, from: nat, k: nat)
    requires k < |items|
    ensures OccursAt(NumberedLines(items, from), Line(from + k, items[k].0, items[k].1), |NumberedLines(items[..k], from)|)
  {
    var line := Line(from + k, items[k].0, items[k].1);
    var before := NumberedLines(items[..k], from);
    var rest := NumberedLines(items[k + 1..], from + k + 1);
    assert NumberedLines(items, from) == before + (line + rest) by {
      assert items == items[..k] + items[k..];
      NumberedLinesAppend(items[..k], items[k..], from);
      assert items[k..] == [items[k]] + items[k + 1..];
      NumberedLinesCons(items[k], items[k + 1..], from + k);
    }
    Associate(before, line, rest);
    OccursBetween(before, line, rest);
  }

  /** Inside a section, the `k`-th item (from zero) is line `k + 1`. */
  lemma {:induction false} SectionListsEveryItem(heading: string, items: seq<(string, string)>, k: nat)
    requires k < |items|
    ensures OccursAt(Section(heading, items), Line(k + 1, items[k].0, items[k].1), |heading| + |NumberedLines(items[..k], 1)|)
  {
    ItemIsNumbered(items, 1, k);
    OccursInside(heading, NumberedLines(items, 1), "\n", Line(k + 1, items[k].0, items[k].1), |NumberedLines(items[..k], 1)|);
  }

  function ContextItems(context: seq<ContextEntry>): (r: seq<(string, string)>)
    ensures |r| == |context|
    ensures forall i :: 0 <= i < |context| ==> r[i] == (context[i].role, context[i].content)
  {
    seq(|context|, i requires 0 <= i < |context| => (context[i].role, context[i].content))
  }

  function KnowledgeItems(knowledge: seq<KnowledgeEntry>): (r: seq<(string, string)>)
    ensures |r| == |knowledge|
    ensures forall i :: 0 <= i < |knowledge| ==> r[i] == (knowledge[i].title, knowledge[i].content)
  {
    seq(|knowledge|, i requires 0 <= i < |knowledge| => (knowledge[i].title, knowledge[i].content))
  }

  /** A titled section of numbered lines; nothing at all when there are no
      items. */
  function Section(heading: string, items: seq<(string, string)>): (r: string)
    ensures |items| == 0 <==> r == ""
  {
    if |items| == 0 then "" else heading + NumberedLines(items, 1) + "\n"
  }

  /** JavaScript `x || fallback` on a string: the empty string is falsy. */
  function OrDefault(s: Option<string>, fallback: string): (r: string)
    ensures s.Some? && s.value != "" ==> r == s.value
    ensures s.None? || s.value == "" ==> r == fallback
  {
    if s.Some? && s.value != "" then s.value else fallback
  }

  /** The satisfaction score as printed: a zero or NaN score is falsy and
      replaced by `0.5`. */
  function ScoreText(score: Option<string>): (r: string)
    ensures score.Some? && score.value !in {"", "0", "NaN"} ==> r == score.value
    ensures score.None? || score.value in {"", "0", "NaN"} ==> r == "0.5"
  {
    if score.None? || score.value in {"", "0", "NaN"} then "0.5" else score.value
  }

  /** The profile lines after the section's opening. */
  function ProfileDetails(p: UserProfile): string {
    var prefs := if p.preferences.Some? then Some(Join(p.preferences.value, ", ")) else None;
    OrDefault(prefs, GeneralCategory) + "\n"
    + "- Communication Style: " + OrDefault(p.communicationStyle, "casual") + "\n"
    + "- Satisfaction Score: " + ScoreText(p.satisfactionScore) + "\n\n"
  }

  /** The profile section; nothing when there is no profile. */
  function ProfileSection(profile: Option<UserProfile>): (r: string)
    ensures profile.None? <==> r == ""
  {
    match profile
    case None => ""
    case Some(p) => ProfileHeading + ProfileDetails(p)
  }

  function Header(message: string): string {
    "User Message: " + message + "\n\n"
  }

  /** The sections between the header and the closing sentence. */
  function Middle(context: seq<ContextEntry>, knowledge: seq<KnowledgeEntry>, profile: Option<UserProfile>): (r: string)
    ensures r == "" <==> |context| == 0 && |knowledge| == 0 && profile.None?
  {
    Section(ContextHeading, ContextItems(context))
    + Section(KnowledgeHeading, KnowledgeItems(knowledge))
    + ProfileSection(profile)
  }

  function Assemble(message: string, context: seq<ContextEntry>, knowledge: seq<KnowledgeEntry>, profile: Option<UserProfile>): string {
    Header(message) + Middle(context, knowledge, profile) + ClosingSentence
  }

  lemma {:induction false} AssembledFrame(message: string, context: seq<ContextEntry>, knowledge: seq<KnowledgeEntry>, profile: Option<UserProfile>)
    ensures var r := Assemble(message, context, knowledge, profile);
      |r| >= |Header(message)| + |ClosingSentence|
      && r[..|Header(message)|] == Header(message)
      && r[|r| - |ClosingSentence|..] == ClosingSentence
      && (r == Header(message) + ClosingSentence <==> |context| == 0 && |knowledge| == 0 && profile.None?)
  {
    Framed(Header(message), Middle(context, knowledge, profile), ClosingSentence);
  }

  /** A string placed between a head and a tail keeps both ends, and leaves
      them adjacent exactly when it is empty. */
  lemma {:induction false} Framed(h: string, middle: string, c: string)
    ensures |h + middle + c| >= |h| + |c|
    ensures (h + middle + c)[..|h|] == h
    ensures (h + middle + c)[|h + middle + c| - |c|..] == c
    ensures h + middle + c == h + c <==> middle == ""
  {
    var r := h + middle + c;
    assert r[..|h|] == h;
    assert r[|r| - |c|..] == c;
    if r == h + c {
      assert |middle| == 0;
    }
  }

  /** A non-empty section opens with its heading and line 1. */
  lemma {:induction false} SectionOpens(heading: string, items: seq<(string, string)>)
    requires |items| > 0
    ensures Section(heading, items) == heading + Line(1, items[0].0, items[0].1) + (NumberedLines(items[1..], 2) + "\n")
  {
  }

  lemma {:induction false} Associate(x: string, y: string, z: string)
    ensures x + (y + z) == x + y + z
  {
  }

  /** Regroupings of three joined parts when the first present part is
      split into an opening and the rest. */
  lemma {:induction false} LeadingPart(x: string, y: string, z: string, first: string, t: string)
    requires x == first + t
    ensures x + y + z == first + (t + (y + z))
  {
  }

  lemma {:induction false} SecondPart(x: string, y: string, z: string, first: string, t: string)
    requires x == "" && y == first + t
    ensures x + y + z == first + (t + z)
  {
  }

  lemma {:induction false} AfterEmpty(x: string, y: string, z: string)
    requires x == "" && y == ""
    ensures x + y + z == z
  {
  }

  /** What opens the middle of a framed string follows the frame's head. */
  lemma {:induction false} OpensMiddle(h: string, middle: string, c: string, first: string, tail: string)
    requires middle == first + tail
    ensures OccursAt(h + middle + c, first, |h|)
  {
    assert h + middle + c == h + first + (tail + c);
    OccursBetween(h, first, tail + c);
  }

  lemma {:induction false} OpensWithContext(message: string, context: seq<ContextEntry>, knowledge: seq<KnowledgeEntry>, profile: Option<UserProfile>)
    requires |context| > 0
    ensures OccursAt(Assemble(message, context, knowledge, profile), ContextHeading + Line(1, context[0].role, context[0].content), |Header(message)|)
  {
    var items := ContextItems(context);
    var first := ContextHeading + Line(1, context[0].role, context[0].content);
    var t := NumberedLines(items[1..], 2) + "\n";
    var rest := Section(KnowledgeHeading, KnowledgeItems(knowledge)) + ProfileSection(profile);
    assert Middle(context, knowledge, profile) == first + (t + rest) by {
      SectionOpens(ContextHeading, items);
      LeadingPart(Section(ContextHeading, items), Section(KnowledgeHeading, KnowledgeItems(knowledge)), ProfileSection(profile), first, t);
    }
    OpensMiddle(Header(message), Middle(context, knowledge, profile), ClosingSentence, first, t + rest);
  }

  lemma {:induction false} OpensWithKnowledge(message: string, context: seq<ContextEntry>, knowledge: seq<KnowledgeEntry>, profile: Option<UserProfile>)
    requires |context| == 0 && |knowledge| > 0
    ensures OccursAt(Assemble(message, context, knowledge, profile), KnowledgeHeading + Line(1, knowledge[0].title, knowledge[0].content), |Header(message)|)
  {
    var items := KnowledgeItems(knowledge);
    var first := KnowledgeHeading + Line(1, knowledge[0].title, knowledge[0].content);
    var t := NumberedLines(items[1..], 2) + "\n";
    var rest := ProfileSection(profile);
    assert Middle(context, knowledge, profile) == first + (t + rest) by {
      SectionOpens(KnowledgeHeading, items);
      SecondPart(Section(ContextHeading, ContextItems(context)), Section(KnowledgeHeading, items), rest, first, t);
    }
    OpensMiddle(Header(message), Middle(context, knowledge, profile), ClosingSentence, first, t + rest);
  }

  lemma {:induction false} OpensWithProfile(message: string, context: seq<ContextEntry>, knowledge: seq<KnowledgeEntry>, profile: Option<UserProfile>)
    requires |context| == 0 && |knowledge| == 0 && profile.Some?
    ensures OccursAt(Assemble(message, context, knowledge, profile), ProfileHeading, |Header(message)|)
  {
    var t := ProfileDetails(profile.value);
    assert Middle(context, knowledge, profile) == ProfileHeading + t by {
      AfterEmpty(Section(ContextHeading, ContextItems(context)), Section(KnowledgeHeading, KnowledgeItems(knowledge)), ProfileSection(profile));
    }
    OpensMiddle(Header(message), Middle(context, knowledge, profile), ClosingSentence, ProfileHeading, t);
  }

  /** The first section present follows the header directly, numbered
      from 1. */
  lemma {:induction false} AssembledOpening(message: string, context: seq<ContextEntry>, knowledge: seq<KnowledgeEntry>, profile: Option<UserProfile>)
    ensures |context| > 0 ==>
      OccursAt(Assemble(message, context, knowledge, profile), ContextHeading + Line(1, context[0].role, context[0].content), |Header(message)|)
    ensures |context| == 0 && |knowledge| > 0 ==>
      OccursAt(Assemble(message, context, knowledge, profile), KnowledgeHeading + Line(1, knowledge[0].title, knowledge[0].content), |Header(message)|)
    ensures |context| == 0 && |knowledge| == 0 && profile.Some? ==>
      OccursAt(Assemble(message, context, knowledge, profile), ProfileHeading, |Header(message)|)
  {
    if |context| > 0 {
      OpensWithContext(message, context, knowledge, profile);
    } else if |knowledge| > 0 {
      OpensWithKnowledge(message, context, knowledge, profile);
    } else if profile.Some? {
      OpensWithProfile(message, context, knowledge, profile);
    }
  }

  /** `buildEnrichedMessage`. */
  function BuildEnrichedMessage(message: string, context: seq<ContextEntry>, knowledge: seq<KnowledgeEntry>, profile: Option<UserProfile>)
    : (r: string)
    ensures |r| >= |Header(message)| + |ClosingSentence|
    ensures r[..|Header(message)|] == Header(message)
    ensures r[|r| - |ClosingSentence|..] == ClosingSentence
    ensures r == Header(message) + ClosingSentence <==> |context| == 0 && |knowledge| == 0 && profile.None?
    ensures |context| > 0 ==>
      OccursAt(r, ContextHeading + Line(1, context[0].role, context[0].content), |Header(message)|)
    ensures |context| == 0 && |knowledge| > 0 ==>
      OccursAt(r, KnowledgeHeading + Line(1, knowledge[0].title, knowledge[0].content), |Header(message)|)
    ensures |context| == 0 && |knowledge| == 0 && profile.Some? ==>
      OccursAt(r, ProfileHeading, |Header(message)|)
  {
    AssembledFrame(message, context, knowledge, profile);
    AssembledOpening(message, context, knowledge, profile);
    Assemble(message, context, knowledge, profile)
  }

  /** The enrichment result. */
  datatype Enriched = Enriched(
    recentContext: seq<ContextEntry>,
    knowledgeBase: seq<KnowledgeEntry>,
    userProfile: Option<UserProfile>,
    enrichedMessage: string)

  /** How many recent context entries and knowledge entries are asked for. */
  const ContextLimit := 3
  const KnowledgeLimit := 5

  /** `enrichWithContext`. The vector store's three lookups are parameters:
      the recent context for a limit, the knowledge base for categories and a
      limit, and the profile. Any failure yields the bare message. */
  function EnrichWithContext(
    message: string,
    findContext: nat -> Result<seq<ContextEntry>, string>,
    searchKnowledge: (seq<string>, nat) -> Result<seq<KnowledgeEntry>, string>,
    profile: Result<Option<UserProfile>, string>)
    : (r: Enriched)
    ensures findContext(ContextLimit).Err? || searchKnowledge(ExtractCategories(message), KnowledgeLimit).Err? || profile.Err?
      ==> r == Enriched([], [], None, message)
    ensures findContext(ContextLimit).Ok? && searchKnowledge(ExtractCategories(message), KnowledgeLimit).Ok? && profile.Ok?
      ==> (r.recentContext == findContext(ContextLimit).value
        && r.knowledgeBase == searchKnowledge(ExtractCategories(message), KnowledgeLimit).value
        && r.userProfile == profile.value
        && r.enrichedMessage == BuildEnrichedMessage(message, r.recentContext, r.knowledgeBase, r.userProfile))
  {
    match findContext(ContextLimit)
    case Err(_) => Enriched([], [], None, message)
    case Ok(context) =>
      match searchKnowledge(ExtractCategories(message), KnowledgeLimit)
      case Err(_) => Enriched([], [], None, message)
      case Ok(knowledge) =>
        match profile
        case Err(_) => Enriched([], [], None, message)
        case Ok(p) => Enriched(context, knowledge, p, BuildEnrichedMessage(message, context, knowledge, p))
  }

  /** With nothing found and no profile the prompt is the message framed by
      the header and the closing sentence; on failure it is the bare
      message. */
  lemma EnrichmentFrames(message: string, findContext: nat -> Result<seq<ContextEntry>, string>,
    searchKnowledge: (seq<string>, nat) -> Result<seq<KnowledgeEntry>, string>)
    requires findContext(ContextLimit) == Ok([])
    requires searchKnowledge(ExtractCategories(message), KnowledgeLimit) == Ok([])
    ensures EnrichWithContext(message, findContext, searchKnowledge, Ok(None)).enrichedMessage
      == "User Message: " + message + "\n\n" + ClosingSentence
    ensures EnrichWithContext(message, findContext, searchKnowledge, Err("")).enrichedMessage == message
  {
  }
}
