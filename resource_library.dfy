/** The resource library: the fallback list filtered by resource type, the
    preview cap of six, and the per-type icon and colour. */
module ResourceLibrary {
  import opened Wrappers
  import opened Lists

  datatype Resource = Resource(id: string, title: string, kind: string)

  datatype Icon = BookOpen | Headphones | Play

  const PreviewLimit := 6

  /** The resource types with their own icon and colour. */
  const KnownKinds: set<string> := {"article", "podcast", "video"}

  function OfKind(kind: string): Resource -> bool {
    (r: Resource) => r.kind == kind
  }

  /** The fallback list: every mock resource for "all", else those of the type. */
  function FallbackResources(mock: seq<Resource>, kind: string): (r: seq<Resource>)
    ensures kind == "all" ==> r == mock
    ensures kind != "all" ==> forall i :: 0 <= i < |r| ==> r[i].kind == kind
    ensures kind != "all" ==> forall i :: 0 <= i < |mock| && mock[i].kind == kind ==> mock[i] in r
    ensures IsSubsequence(r, mock)
  {
    if kind == "all" then SubsequenceOfSelf(mock); mock
    else FilterIsSubsequence(mock, OfKind(kind)); Filter(mock, OfKind(kind))
  }

  /** The list after `fetchResources`: the fetched one (`data.resources || []`
      already applied), or the fallback when the request fails (`None`). */
  function LoadedResources(fetched: Option<seq<Resource>>, mock: seq<Resource>, kind: string)
    : (r: seq<Resource>)
    ensures fetched.Some? ==> r == fetched.value
    ensures fetched.None? ==> r == FallbackResources(mock, kind)
  {
    match fetched
    case Some(list) => list
    case None => FallbackResources(mock, kind)
  }

  /** `displayResources`: the first six in preview, all otherwise. */
  function DisplayResources(resources: seq<Resource>, preview: bool): (r: seq<Resource>)
    ensures preview ==> |r| <= PreviewLimit && r <= resources
    ensures !preview ==> r == resources
  {
    if preview then Take(resources, PreviewLimit) else resources
  }

  /** The "explore full library" button. */
  predicate ShowExplore(resources: seq<Resource>, preview: bool) {
    preview && |resources| > PreviewLimit
  }

  /** The button appears exactly when the preview hides some resource. */
  lemma ExploreWhenHidden(resources: seq<Resource>, preview: bool)
    ensures ShowExplore(resources, preview) <==> |DisplayResources(resources, preview)| < |resources|
  {
  }

  /** `getResourceIcon`. */
  function ResourceIcon(kind: string): (icon: Icon)
    ensures kind !in KnownKinds ==> icon == BookOpen
    ensures icon == Headphones <==> kind == "podcast"
    ensures icon == Play <==> kind == "video"
  {
    match kind
    case "article" => BookOpen
    case "podcast" => Headphones
    case "video" => Play
    case _ => BookOpen
  }

  /** `getResourceColor`. */
  function ResourceColor(kind: string): (color: string)
    ensures kind !in KnownKinds ==> color == "neo-cyan"
    ensures color == "neo-pink" <==> kind == "podcast"
    ensures color == "neo-orange" <==> kind == "video"
  {
    match kind
    case "article" => "neo-cyan"
    case "podcast" => "neo-pink"
    case "video" => "neo-orange"
    case _ => "neo-cyan"
  }

  /** An unknown type looks like an article. */
  lemma UnknownLooksLikeArticle(kind: string)
    requires kind !in KnownKinds
    ensures ResourceIcon(kind) == ResourceIcon("article") && ResourceColor(kind) == ResourceColor("article")
  {
  }
}
