/**
 * The `/process` endpoint of the Flask back end: request routing, and the
 * normalisation of the vision model's reply into a report whose category is
 * one of a fixed list, whose priority follows from the category and whose
 * title falls back to the description.
 *
 * The model call itself is not part of this model: its outcome is an input,
 * a `ModelReply`.
 */
module MediaProcessing {
  import opened Wrappers
  import opened Text

  /** The seven report categories. */
  datatype Category = Pothole | StreetLight | GarbageWaste | TrafficSignal | Sidewalk | WaterIssue | Other

  /** The spelling of each category in the JSON answer; none is empty. */
  function Name(c: Category): (n: string)
    ensures n != ""
  {
    match c
    case Pothole => "Pothole"
    case StreetLight => "Street Light"
    case GarbageWaste => "Garbage/Waste"
    case TrafficSignal => "Traffic Signal"
    case Sidewalk => "Sidewalk"
    case WaterIssue => "Water Issue"
    case Other => "Other"
  }

  /** The categories a report may carry, in the order they are tried. */
  const AllowedCategories: seq<Category> :=
    [Pothole, StreetLight, GarbageWaste, TrafficSignal, Sidewalk, WaterIssue, Other]

  /** Categories reported with priority "high". */
  const HighPriorityCategories: set<Category> := {Pothole, TrafficSignal}

  /** A keyword list and the category it votes for. */
  datatype KeywordGroup = KeywordGroup(keywords: seq<string>, target: Category)

  /** The keyword groups of the deep scan, in the order they are tried. */
  const KeywordGroups: seq<KeywordGroup> := [
    KeywordGroup(["pothole", "hole", "sinkhole", "manhole", "roadway", "road maintenance", "asphalt",
                  "pavement", "crack", "cracked", "deterioration", "depression"], Pothole),
    KeywordGroup(["street light", "streetlight", "lamp", "lamp post", "pole", "light not working", "bulb"],
                 StreetLight),
    KeywordGroup(["garbage", "trash", "waste", "dump", "rubbish", "dumping"], GarbageWaste),
    KeywordGroup(["traffic signal", "signal", "traffic light", "signal not working", "lights stuck"],
                 TrafficSignal),
    KeywordGroup(["sidewalk", "footpath", "pavement (sidewalk)", "walkway", "pedestrian path"], Sidewalk),
    KeywordGroup(["water", "sewage", "drain", "drainage", "flood", "leak", "water leak", "overflow"],
                 WaterIssue)
  ]

  /** The normalised report sent back to the client. */
  datatype Report = Report(issueTitle: string, issueCategory: Category, detailedDescription: string, priority: string)

  /** What `/process` answers: a report, or an error status with its message. */
  datatype Response = Ok(report: Report) | Err(status: nat, error: string)

  /** The outcome of asking the vision model about an image: the three
      fields of its JSON reply (a missing or null key reads as ""), a reply
      that is not JSON, or an exception raised while obtaining it. */
  datatype ModelReply =
    | Fields(issueTitle: string, issueCategory: string, detailedDescription: string)
    | Unparsable
    | Failed(message: string)

  /** The fixed answer for an uploaded video. */
  const VideoReport: Report :=
    Report("Video Report", Other, "Video uploaded. Image-based analysis not implemented for video yet.", "medium")

  // ---------------------------------------------------------------------------
  // The three matching stages, as first-match searches
  // ---------------------------------------------------------------------------

  /** `raw.lower() == cat.lower()`. The canonical spelling matches, and
      only a text of the same length can. */
  predicate SameIgnoringCase(raw: string, cat: Category)
    ensures raw == Name(cat) ==> SameIgnoringCase(raw, cat)
    ensures SameIgnoringCase(raw, cat) ==> |raw| == |Name(cat)|
  {
    Lower(raw) == Lower(Name(cat))
  }

  /** `cat.lower() in raw.lower()`. A text equal to the name ignoring case
      contains it, and only a text at least as long as the name can. */
  predicate NamesCategory(raw: string, cat: Category)
    ensures SameIgnoringCase(raw, cat) ==> NamesCategory(raw, cat)
    ensures NamesCategory(raw, cat) ==> |Name(cat)| <= |raw|
  {
    Contains(Lower(raw), Lower(Name(cat)))
  }

  /** Some keyword of `keywords` occurs in `text`: never for an empty
      list, always when some keyword starts the text. */
  predicate MentionsAny(text: string, keywords: seq<string>)
    ensures MentionsAny(text, keywords) ==> keywords != []
    ensures forall k :: 0 <= k < |keywords| && keywords[k] <= text ==> MentionsAny(text, keywords)
  {
    exists k :: 0 <= k < |keywords| && Contains(text, keywords[k])
  }

  /** The position of the first category equal to `raw` ignoring case. */
  function ExactIndex(cats: seq<Category>, raw: string): (r: Option<nat>)
    ensures r.Some? ==> r.value < |cats| && SameIgnoringCase(raw, cats[r.value])
                        && forall j :: 0 <= j < r.value ==> !SameIgnoringCase(raw, cats[j])
    ensures r.None? ==> forall j :: 0 <= j < |cats| ==> !SameIgnoringCase(raw, cats[j])
  {
    if cats == [] then None
    else if SameIgnoringCase(raw, cats[0]) then Some(0)
    else match ExactIndex(cats[1..], raw)
      case None => None
      case Some(k) => Some(k + 1)
  }

  /** The position of the first category whose name occurs in `raw`, ignoring case. */
  function ContainedIndex(cats: seq<Category>, raw: string): (r: Option<nat>)
    ensures r.Some? ==> r.value < |cats| && NamesCategory(raw, cats[r.value])
                        && forall j :: 0 <= j < r.value ==> !NamesCategory(raw, cats[j])
    ensures r.None? ==> forall j :: 0 <= j < |cats| ==> !NamesCategory(raw, cats[j])
  {
    if cats == [] then None
    else if NamesCategory(raw, cats[0]) then Some(0)
    else match ContainedIndex(cats[1..], raw)
      case None => None
      case Some(k) => Some(k + 1)
  }

  /** The position of the first group with a keyword in `text`. */
  function GroupIndex(groups: seq<KeywordGroup>, text: string): (r: Option<nat>)
    ensures r.Some? ==> r.value < |groups| && MentionsAny(text, groups[r.value].keywords)
                        && forall h :: 0 <= h < r.value ==> !MentionsAny(text, groups[h].keywords)
    ensures r.None? ==> forall h :: 0 <= h < |groups| ==> !MentionsAny(text, groups[h].keywords)
  {
    if groups == [] then None
    else if MentionsAny(text, groups[0].keywords) then Some(0)
    else match GroupIndex(groups[1..], text)
      case None => None
      case Some(k) => Some(k + 1)
  }

  /** `" ".join([title, raw, description]).lower()`: the three lower-cased
      fields in order, separated by single spaces. */
  function CombinedText(title: string, raw: string, description: string): (r: string)
    ensures |r| == |title| + |raw| + |description| + 2
    ensures r[..|title|] == Lower(title) && r[|title|] == ' '
    ensures r[|title| + 1..|title| + 1 + |raw|] == Lower(raw) && r[|title| + 1 + |raw|] == ' '
    ensures r[|title| + |raw| + 2..] == Lower(description)
  {
    LowerAppend(title + " " + raw, " " + description);
    LowerAppend(title, " " + raw);
    LowerAppend(" ", raw);
    LowerAppend(" ", description);
    assert title + " " + raw + " " + description == (title + " " + raw) + (" " + description);
    assert title + " " + raw == title + (" " + raw);
    Lower(title + " " + raw + " " + description)
  }

  /** Stage 1: the first allowed category equal to `raw` ignoring case. It
      decides exactly when some allowed category matches, and then with a
      matching one. */
  function ExactStage(raw: string): (r: Option<Category>)
    ensures r.Some? ==> SameIgnoringCase(raw, r.value)
    ensures r.None? <==> forall j :: 0 <= j < |AllowedCategories| ==> !SameIgnoringCase(raw, AllowedCategories[j])
  {
    match ExactIndex(AllowedCategories, raw)
    case Some(i) => Some(AllowedCategories[i])
    case None => None
  }

  /** Stage 2: for a non-empty `raw`, the first allowed category, in list
      order, whose name it contains, ignoring case. */
  function ContainedStage(raw: string): (r: Option<Category>)
    ensures r.Some? ==> exists i :: 0 <= i < |AllowedCategories| && AllowedCategories[i] == r.value
                          && NamesCategory(raw, AllowedCategories[i])
                          && forall j :: 0 <= j < i ==> !NamesCategory(raw, AllowedCategories[j])
    ensures r.None? <==> raw == "" || forall j :: 0 <= j < |AllowedCategories| ==> !NamesCategory(raw, AllowedCategories[j])
  {
    if raw == "" then None
    else match ContainedIndex(AllowedCategories, raw)
      case Some(i) => Some(AllowedCategories[i])
      case None => None
  }

  /** Stage 3: the target of the first keyword group, in list order, with
      a keyword in `text`; None exactly when no group has one. */
  function KeywordStage(text: string): (r: Option<Category>)
    ensures r.Some? ==> exists g :: 0 <= g < |KeywordGroups| && KeywordGroups[g].target == r.value
                          && MentionsAny(text, KeywordGroups[g].keywords)
                          && forall h :: 0 <= h < g ==> !MentionsAny(text, KeywordGroups[h].keywords)
    ensures r.None? <==> forall h :: 0 <= h < |KeywordGroups| ==> !MentionsAny(text, KeywordGroups[h].keywords)
  {
    match GroupIndex(KeywordGroups, text)
    case Some(g) => Some(KeywordGroups[g].target)
    case None => None
  }

  /** The category chosen for already-trimmed fields: the first stage that
      decides, else "Other". An exact match always wins, and every category
      but "Other" is backed by the raw text or by one of its keywords. */
  function MappedCategory(title: string, raw: string, description: string): (r: Category)
    ensures ExactStage(raw).Some? ==> SameIgnoringCase(raw, r)
    ensures r != Other ==>
              SameIgnoringCase(raw, r) || NamesCategory(raw, r)
              || exists g :: 0 <= g < |KeywordGroups| && KeywordGroups[g].target == r
                               && MentionsAny(CombinedText(title, raw, description), KeywordGroups[g].keywords)
  {
    match ExactStage(raw)
    case Some(c) => c
    case None =>
      match ContainedStage(raw)
      case Some(c) => c
      case None =>
        match KeywordStage(CombinedText(title, raw, description))
        case Some(c) => c
        case None => Other
  }

  /** Stage 1 decides for the first allowed category that matches. */
  lemma {:induction false} ExactStageAt(raw: string, i: nat)
    requires i < |AllowedCategories| && SameIgnoringCase(raw, AllowedCategories[i])
    requires forall j :: 0 <= j < i ==> !SameIgnoringCase(raw, AllowedCategories[j])
    ensures ExactStage(raw) == Some(AllowedCategories[i])
  {
    assert ExactIndex(AllowedCategories, raw) == Some(i);
  }

  /** Stage 2 decides, for a non-empty raw category, for the first allowed
      category whose name it contains. */
  lemma {:induction false} ContainedStageAt(raw: string, i: nat)
    requires raw != ""
    requires i < |AllowedCategories| && NamesCategory(raw, AllowedCategories[i])
    requires forall j :: 0 <= j < i ==> !NamesCategory(raw, AllowedCategories[j])
    ensures ContainedStage(raw) == Some(AllowedCategories[i])
  {
    assert ContainedIndex(AllowedCategories, raw) == Some(i);
  }

  /** Stage 3 decides for the first group with a keyword in the text. */
  lemma {:induction false} KeywordStageAt(text: string, g: nat)
    requires g < |KeywordGroups| && MentionsAny(text, KeywordGroups[g].keywords)
    requires forall h :: 0 <= h < g ==> !MentionsAny(text, KeywordGroups[h].keywords)
    ensures KeywordStage(text) == Some(KeywordGroups[g].target)
  {
    assert GroupIndex(KeywordGroups, text) == Some(g);
  }

  /** Stage 1 as the endpoint runs it: a scan of the allowed list that
      stops at the first exact match. */
  method MatchExact(raw: string) returns (found: Option<Category>)
    ensures found == ExactStage(raw)
  {
    found := None;
    var i := 0;
    while i < |AllowedCategories|
      invariant 0 <= i <= |AllowedCategories|
      invariant forall j :: 0 <= j < i ==> !SameIgnoringCase(raw, AllowedCategories[j])
    {
      if Lower(raw) == Lower(Name(AllowedCategories[i])) {
        found := Some(AllowedCategories[i]);
        ExactStageAt(raw, i);
        return;
      }
      i := i + 1;
    }
  }

  /** Stage 2 as the endpoint runs it, only for a non-empty raw category. */
  method MatchContained(raw: string) returns (found: Option<Category>)
    ensures found == ContainedStage(raw)
  {
    found := None;
    if raw == "" {
      return;
    }
    var i := 0;
    while i < |AllowedCategories|
      invariant 0 <= i <= |AllowedCategories|
      invariant forall j :: 0 <= j < i ==> !NamesCategory(raw, AllowedCategories[j])
    {
      if Contains(Lower(raw), Lower(Name(AllowedCategories[i]))) {
        found := Some(AllowedCategories[i]);
        ContainedStageAt(raw, i);
        return;
      }
      i := i + 1;
    }
  }

  /** Stage 3 as the endpoint runs it: groups in order, keywords in order,
      leaving both loops at the first keyword found in `text`. */
  method ScanKeywords(text: string) returns (found: Option<Category>)
    ensures found == KeywordStage(text)
  {
    found := None;
    var g := 0;
    while g < |KeywordGroups|
      invariant 0 <= g <= |KeywordGroups|
      invariant found == None
      invariant forall h :: 0 <= h < g ==> !MentionsAny(text, KeywordGroups[h].keywords)
    {
      var keywords := KeywordGroups[g].keywords;
      var k := 0;
      while k < |keywords|
        invariant 0 <= k <= |keywords|
        invariant found == None
        invariant forall j :: 0 <= j < k ==> !Contains(text, keywords[j])
      {
        if Contains(text, keywords[k]) {
          found := Some(KeywordGroups[g].target);
          break;
        }
        k := k + 1;
      }
      if found.Some? {
        KeywordStageAt(text, g);
        return;
      }
      g := g + 1;
    }
  }

  /** The category mapping of the endpoint: the three stages in turn, then
      the fallback. */
  method MapCategory(title: string, raw: string, description: string) returns (mapped: Category)
    ensures mapped == MappedCategory(title, raw, description)
  {
    var found := MatchExact(raw);
    if found.None? {
      found := MatchContained(raw);
    }
    if found.None? {
      found := ScanKeywords(CombinedText(title, raw, description));
    }
    if found.None? {
      found := Some(Other);
    }
    mapped := found.value;
  }

  // ---------------------------------------------------------------------------
  // Priority, title and the final report
  // ---------------------------------------------------------------------------

  /** "high" for the high-priority categories, "medium" for every other. */
  function Priority(category: Category): (p: string)
    ensures p == "high" <==> category == Pothole || category == TrafficSignal
    ensures p == "high" || p == "medium"
  {
    if category in HighPriorityCategories then "high" else "medium"
  }

  /** The report title, with the precedence Python gives
      `title or (description[:80] + "...") if description else "Untitled"`:
      the conditional binds loosest, so an empty description always yields
      "Untitled", whatever the title. */
  function IssueTitle(title: string, description: string): (t: string)
    ensures description == "" ==> t == "Untitled"
    ensures description != "" && title != "" ==> t == title
    ensures description != "" && title == "" ==>
              t == description[..if |description| < 80 then |description| else 80] + "..."
    ensures t != ""
  {
    if description != "" then (if title != "" then title else Take(description, 80) + "...")
    else "Untitled"
  }

  /** The report built from the three reply fields: each is trimmed, the
      category mapped, and the title and priority derived. */
  function Normalised(title: string, category: string, description: string): (r: Report)
    ensures r.issueCategory in AllowedCategories
    ensures r.issueTitle != ""
    ensures Strip(description) == "" ==> r.issueTitle == "Untitled"
    ensures Strip(description) != "" && Strip(title) != "" ==> r.issueTitle == Strip(title)
    ensures r.detailedDescription == Strip(description)
    ensures r.priority == "high" <==> r.issueCategory == Pothole || r.issueCategory == TrafficSignal
    ensures r.priority == "high" || r.priority == "medium"
  {
    var t := Strip(title);
    var raw := Strip(category);
    var d := Strip(description);
    var mapped := MappedCategory(t, raw, d);
    MappedCategoryIsAllowed(t, raw, d);
    Report(IssueTitle(t, d), mapped, d, Priority(mapped))
  }

  /** The `kind` form field, "image" when absent. */
  function RequestKind(kind: Option<string>): (k: string)
    ensures kind.None? ==> k == "image"
    ensures kind.Some? ==> k == kind.value
  {
    match kind
    case Some(k) => k
    case None => "image"
  }

  /** The `/process` handler. `hasFile` says whether the multipart body holds
      a `file` part; `reply` is what the vision model returned for it. */
  method ProcessMedia(hasFile: bool, kind: Option<string>, reply: ModelReply) returns (r: Response)
    ensures !hasFile ==> r == Err(400, "No file uploaded")
    ensures hasFile && RequestKind(kind) == "image" ==>
              r == match reply
                   case Fields(t, c, d) => Ok(Normalised(t, c, d))
                   case Unparsable => Ok(Normalised("", "", ""))
                   case Failed(message) => Err(500, message)
    ensures hasFile && RequestKind(kind) == "video" ==> r == Ok(VideoReport)
    ensures hasFile && RequestKind(kind) != "image" && RequestKind(kind) != "video" ==>
              r == Err(400, "Unsupported media kind: " + RequestKind(kind))
  {
    if !hasFile {
      return Err(400, "No file uploaded");
    }
    var k := RequestKind(kind);
    if k == "image" {
      var fields: (string, string, string);
      match reply {
        case Failed(message) =>
          return Err(500, message);
        case Unparsable =>
          fields := ("", "", "");
        case Fields(t, c, d) =>
          fields := (t, c, d);
      }
      var title := Strip(fields.0);
      var raw := Strip(fields.1);
      var description := Strip(fields.2);
      var mapped := MapCategory(title, raw, description);
      r := Ok(Report(IssueTitle(title, description), mapped, description, Priority(mapped)));
    } else if k == "video" {
      r := Ok(VideoReport);
    } else {
      r := Err(400, "Unsupported media kind: " + k);
    }
  }

  // ---------------------------------------------------------------------------
  // Properties of the normalisation
  // ---------------------------------------------------------------------------

  /** Whichever stage decides, the category is one of the allowed ones.
      This holds by the `Category` encoding, every value of which is listed
      in `AllowedCategories`; what ties it to the source is that `Name` and
      the keyword-group targets use exactly the allowed spellings. */
  lemma {:induction false} MappedCategoryIsAllowed(title: string, raw: string, description: string)
    ensures MappedCategory(title, raw, description) in AllowedCategories
  {
  }

  /** No two allowed categories are equal ignoring case: their names have
      seven different lengths, and lower-casing keeps lengths. */
  lemma {:induction false} LoweredCategoriesDistinct()
    ensures forall i, j :: 0 <= i < j < |AllowedCategories| ==>
              Lower(Name(AllowedCategories[i])) != Lower(Name(AllowedCategories[j]))
  {
  }

  /** A raw category that, once trimmed, equals an allowed category ignoring
      case is reported as that category, in its canonical spelling. */
  lemma {:induction false} ExactCategoryIsCanonical(title: string, category: string, description: string, i: nat)
    requires i < |AllowedCategories|
    requires SameIgnoringCase(Strip(category), AllowedCategories[i])
    ensures Normalised(title, category, description).issueCategory == AllowedCategories[i]
  {
    var raw := Strip(category);
    LoweredCategoriesDistinct();
    assert ExactIndex(AllowedCategories, raw) == Some(i);
    assert ExactStage(raw) == Some(AllowedCategories[i]);
  }

  /** A raw category with no exact match that contains an allowed name is
      reported as the first allowed category, in list order, it contains. */
  lemma {:induction false} ContainedCategoryWins(title: string, raw: string, description: string, i: nat)
    requires forall j :: 0 <= j < |AllowedCategories| ==> !SameIgnoringCase(raw, AllowedCategories[j])
    requires raw != ""
    requires i < |AllowedCategories| && NamesCategory(raw, AllowedCategories[i])
    requires forall j :: 0 <= j < i ==> !NamesCategory(raw, AllowedCategories[j])
    ensures MappedCategory(title, raw, description) == AllowedCategories[i]
  {
    ContainedStageAt(raw, i);
  }

  /** When neither the exact nor the contained-name stage applies, the
      category is the target of the first group, in list order, with a
      keyword in the combined lower-cased text. */
  lemma {:induction false} KeywordScanPicksFirstGroup(title: string, raw: string, description: string, g: nat)
    requires forall j :: 0 <= j < |AllowedCategories| ==> !SameIgnoringCase(raw, AllowedCategories[j])
    requires raw == "" || forall j :: 0 <= j < |AllowedCategories| ==> !NamesCategory(raw, AllowedCategories[j])
    requires g < |KeywordGroups| && MentionsAny(CombinedText(title, raw, description), KeywordGroups[g].keywords)
    requires forall h :: 0 <= h < g ==> !MentionsAny(CombinedText(title, raw, description), KeywordGroups[h].keywords)
    ensures MappedCategory(title, raw, description) == KeywordGroups[g].target
  {
    assert ExactStage(raw) == None;
    assert ContainedStage(raw) == None;
    assert GroupIndex(KeywordGroups, CombinedText(title, raw, description)) == Some(g);
  }

  /** When no stage applies, the category is "Other". */
  lemma {:induction false} NoKeywordMeansOther(title: string, raw: string, description: string)
    requires forall j :: 0 <= j < |AllowedCategories| ==> !SameIgnoringCase(raw, AllowedCategories[j])
    requires raw == "" || forall j :: 0 <= j < |AllowedCategories| ==> !NamesCategory(raw, AllowedCategories[j])
    requires forall h :: 0 <= h < |KeywordGroups| ==> !MentionsAny(CombinedText(title, raw, description), KeywordGroups[h].keywords)
    ensures MappedCategory(title, raw, description) == Other
  {
  }

  /** When neither the exact nor the contained-name stage decides, text
      containing "pavement (sidewalk)" maps to Pothole, not Sidewalk:
      Pothole's keyword "pavement" is tried first. */
  lemma {:induction false} PavementSidewalkIsPothole(title: string, raw: string, description: string)
    requires forall j :: 0 <= j < |AllowedCategories| ==> !SameIgnoringCase(raw, AllowedCategories[j])
    requires raw == "" || forall j :: 0 <= j < |AllowedCategories| ==> !NamesCategory(raw, AllowedCategories[j])
    requires Contains(CombinedText(title, raw, description), "pavement (sidewalk)")
    ensures MappedCategory(title, raw, description) == Pothole
  {
    var text := CombinedText(title, raw, description);
    assert KeywordGroups[0].keywords[7] == "pavement";
    ContainsPrefixOfMatch(text, "pavement (sidewalk)", "pavement");
    assert MentionsAny(text, KeywordGroups[0].keywords);
    assert GroupIndex(KeywordGroups, text) == Some(0);
  }

  /** An empty raw category matches no allowed name: every name is non-empty. */
  lemma {:induction false} EmptyRawMatchesNothing()
    ensures ExactStage("") == None
    ensures ContainedStage("") == None
  {
  }

  /** Every keyword is longer than three characters. */
  lemma {:induction false} KeywordsAreLong()
    ensures forall h, k :: 0 <= h < |KeywordGroups| && 0 <= k < |KeywordGroups[h].keywords| ==>
              |KeywordGroups[h].keywords[k]| > 3
  {
  }

  /** So no keyword occurs in a text of at most three characters. */
  lemma {:induction false} ShortTextHasNoKeyword(text: string)
    requires |text| <= 3
    ensures KeywordStage(text) == None
  {
    KeywordsAreLong();
    assert forall h :: 0 <= h < |KeywordGroups| ==> !MentionsAny(text, KeywordGroups[h].keywords);
  }

  /** Three empty fields fall through every stage to "Other". */
  lemma {:induction false} EmptyFieldsMapToOther()
    ensures MappedCategory("", "", "") == Other
  {
    EmptyRawMatchesNothing();
    ShortTextHasNoKeyword(CombinedText("", "", ""));
  }

  /** A reply that does not parse yields the default report. */
  lemma {:induction false} UnparsableReplyDefaults()
    ensures Normalised("", "", "") == Report("Untitled", Other, "", "medium")
  {
    assert Strip("") == "";
    EmptyFieldsMapToOther();
  }
}
