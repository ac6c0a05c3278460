/**
 * The Reddit API table and request builder. Each endpoint has a URL template,
 * an HTTP method, a description and a parameter schema; a request fills the
 * `{key}` placeholders of its URL from the parameters (removing the ones used)
 * and sends the rest as the query.
 */
module RedditApi {
  import opened Common

  const BaseUrl := "https://oauth.reddit.com/"

  /** The base URL without its final slash. */
  const Host := "https://oauth.reddit.com"

  datatype Endpoint = Endpoint(url: string, httpMethod: string, description: string, schema: ParamSchema)

  /** A property schema `{type, description}`. */
  function Prop(ty: string, description: string): Json {
    JObj(map["type" := JStr(ty), "description" := JStr(description)])
  }

  /** A string property restricted to `values`. */
  function EnumProp(description: string, values: seq<string>): Json {
    JObj(map["type" := JStr("string"), "description" := JStr(description),
             "enum" := JArr(seq(|values|, i requires 0 <= i < |values| => JStr(values[i])))])
  }

  function Params(description: string, properties: map<string, Json>, required: seq<string>): ParamSchema {
    ParamSchema(properties, required, map["type" := JStr("object"), "description" := JStr(description)])
  }

  const TimeFilter := ["hour", "day", "week", "month", "year", "all"]

  /** The paging properties shared by the subreddit listings. */
  function Paging(): map<string, Json> {
    map[
      "after" := Prop("string", "Fullname of thing to fetch after"),
      "before" := Prop("string", "Fullname of thing to fetch before"),
      "count" := Prop("number", "Positive integer (default: 0)"),
      "limit" := Prop("number", "Maximum items desired (default: 25, max: 100)"),
      "show" := Prop("string", "Optional string \"all\""),
      "sr_detail" := Prop("boolean", "Expand subreddits")]
  }

  const EndpointNames := {"getBest", "getByIds", "getComments", "getHot", "getNew", "getTop", "search"}

  /** `keyof typeof redditApiSchema`: the names the table declares. */
  type EndpointName = name: string | name in EndpointNames witness "getBest"

  /** `` `{${key}}` ``. */
  function Placeholder(key: string): string { "{" + key + "}" }

  /** The URL template of each endpoint. */
  function UrlOf(name: EndpointName): string
  {
    match name
    case "getBest" => "/best"
    case "getByIds" => "/by_id/" + Placeholder("names")
    case "getComments" => "/comments/" + Placeholder("article")
    case "getHot" => "/r/" + Placeholder("subreddit") + "/hot"
    case "getNew" => "/r/" + Placeholder("subreddit") + "/new"
    case "getTop" => "/r/" + Placeholder("subreddit") + "/top"
    case "search" => "/search"
  }

  /** The description of each endpoint. */
  function DescriptionOf(name: EndpointName): string
  {
    match name
    case "getBest" => "Get the best posts from Reddit. Returns a listing of links."
    case "getByIds" => "Get a listing of links by fullname"
    case "getComments" => "Get the comment tree for a given Link article"
    case "getHot" => "Get hot posts from a subreddit"
    case "getNew" => "Get newest posts from a subreddit"
    case "getTop" => "Get top posts from a subreddit"
    case "search" => "Search Reddit posts"
  }

  function BestParams(): ParamSchema {
    Params("Parameters for getting best posts", map[
      "after" := Prop("string", "Fullname of a thing to fetch after"),
      "before" := Prop("string", "Fullname of a thing to fetch before"),
      "count" := Prop("number", "A positive integer (default: 0)"),
      "limit" := Prop("number", "Maximum number of items desired (default: 25, maximum: 100)"),
      "show" := Prop("string", "Optional string \"all\""),
      "sr_detail" := Prop("boolean", "Expand subreddits")],
    ["subreddit"])
  }

  function ByIdsParams(): ParamSchema {
    Params("Parameters for getting posts by IDs", map[
      "names" := JObj(map["type" := JStr("array"), "description" := JStr("A list of fullnames for links"),
                          "items" := JObj(map["type" := JStr("string")])])],
    ["names"])
  }

  function CommentsParams(): ParamSchema {
    Params("Parameters for getting comments", map[
      "article" := Prop("string", "ID36 of a link"),
      "comment" := Prop("string", "Optional ID36 of a comment"),
      "context" := Prop("number", "Integer between 0 and 8"),
      "depth" := Prop("number", "Maximum depth of subtrees"),
      "showedits" := Prop("boolean", "Show edits in comments"),
      "showmedia" := Prop("boolean", "Show media in comments"),
      "showmore" := Prop("boolean", "Show more comments"),
      "showtitle" := Prop("boolean", "Show post title"),
      "sort" := EnumProp("Sort method for comments", ["confidence", "top", "new", "controversial", "old", "random", "qa", "live"]),
      "theme" := EnumProp("Theme for display", ["default", "dark"]),
      "threaded" := Prop("boolean", "Show comments in threaded mode"),
      "truncate" := Prop("number", "Integer between 0 and 50 for truncation")],
    ["article"])
  }

  function HotParams(): ParamSchema {
    Params("Parameters for getting hot posts", Paging()[
      "subreddit" := Prop("string", "Name of subreddit")][
      "g" := Prop("string", "Geo filter for results")],
    ["subreddit"])
  }

  function NewParams(): ParamSchema {
    Params("Parameters for getting new posts", Paging()[
      "subreddit" := Prop("string", "Name of subreddit")],
    ["subreddit"])
  }

  function TopParams(): ParamSchema {
    Params("Parameters for getting top posts", Paging()[
      "subreddit" := Prop("string", "Name of subreddit")][
      "t" := EnumProp("Time filter for results", TimeFilter)],
    ["subreddit", "t"])
  }

  function SearchParams(): ParamSchema {
    Params("Parameters for searching posts", map[
      "q" := Prop("string", "Search query string (max 512 chars)"),
      "category" := Prop("string", "Category string (max 5 chars)"),
      "include_facets" := Prop("boolean", "Include faceted search results"),
      "restrict_sr" := Prop("boolean", "Restrict search to subreddit"),
      "sort" := EnumProp("Sort method for results", ["relevance", "hot", "top", "new", "comments"]),
      "t" := EnumProp("Time filter for results", TimeFilter),
      "type" := Prop("string", "Comma-delimited list of result types (sr,link,user)")],
    ["q"])
  }

  /** The parameter schema of each endpoint. */
  function SchemaOf(name: EndpointName): ParamSchema
  {
    match name
    case "getBest" => BestParams()
    case "getByIds" => ByIdsParams()
    case "getComments" => CommentsParams()
    case "getHot" => HotParams()
    case "getNew" => NewParams()
    case "getTop" => TopParams()
    case "search" => SearchParams()
  }

  /** The entry of one endpoint name; every endpoint is a GET. */
  function EndpointOf(name: EndpointName): Endpoint
  {
    Endpoint(UrlOf(name), "GET", DescriptionOf(name), SchemaOf(name))
  }

  /** The endpoint table, keyed by endpoint name. */
  function ApiTable(): (table: map<string, Endpoint>)
    ensures table.Keys == EndpointNames
    ensures forall name :: name in table ==> table[name] == EndpointOf(name)
  {
    map name | name in EndpointNames :: EndpointOf(name)
  }

  // ---------------------------------------------------------------------------
  // Placeholder substitution

  /** The keys are the parameters' keys, each once, in `Object.keys` order. */
  predicate KeyOrder(params: map<string, Json>, order: seq<string>) {
    && (forall i, j :: 0 <= i < j < |order| ==> order[i] != order[j])
    && params.Keys == set k | k in order
  }

  /**
   * The specification of the substitution loop: for each key in turn, if its
   * placeholder occurs in the URL, its first occurrence is replaced by the
   * value's text (`String(value)`, which joins arrays with ",") and the key
   * is removed from the parameters.
   */
  function Substituted(url: string, params: map<string, Json>, order: seq<string>): (string, map<string, Json>)
    requires forall k :: k in order ==> k in params
    requires forall i, j :: 0 <= i < j < |order| ==> order[i] != order[j]
    decreases |order|
  {
    if order == [] then (url, params)
    else
      var k := order[0];
      assert forall j :: 1 <= j < |order| ==> order[j] != k;
      if Includes(url, Placeholder(k))
      then Substituted(ReplaceFirst(url, Placeholder(k), Text(params[k])), params - {k}, order[1..])
      else Substituted(url, params, order[1..])
  }

  /** Substitution only removes parameters: a kept one keeps its value, and a key not visited is kept. */
  lemma {:induction false} SubstitutedKeeps(url: string, params: map<string, Json>, order: seq<string>)
    requires forall k :: k in order ==> k in params
    requires forall i, j :: 0 <= i < j < |order| ==> order[i] != order[j]
    ensures var r := Substituted(url, params, order);
      && r.1.Keys <= params.Keys
      && (forall k :: k in r.1 ==> r.1[k] == params[k])
      && (forall k :: k in params && k !in order ==> k in r.1)
    decreases |order|
  {
    if order != [] {
      var k := order[0];
      assert forall j :: 1 <= j < |order| ==> order[j] != k;
      if Includes(url, Placeholder(k)) {
        SubstitutedKeeps(ReplaceFirst(url, Placeholder(k), Text(params[k])), params - {k}, order[1..]);
      } else {
        SubstitutedKeeps(url, params, order[1..]);
      }
    }
  }

  /** No element twice. */
  predicate Distinct(s: seq<string>) {
    forall a, b :: 0 <= a < b < |s| ==> s[a] != s[b]
  }

  /** The keys after the first are still parameters, each once. */
  lemma RestKeys(params: map<string, Json>, rest: seq<string>)
    requires rest != [] && Distinct(rest)
    requires forall k :: k in rest ==> k in params
    ensures forall k :: k in rest[1..] ==> k in params && k in params - {rest[0]}
    ensures Distinct(rest[1..])
  {
    forall k | k in rest[1..]
      ensures k in params - {rest[0]}
    {
      var j :| 0 <= j < |rest[1..]| && rest[1..][j] == k;
      assert rest[j + 1] == k;
    }
  }

  /** A key whose placeholder occurs: it is filled and removed, then the rest follow. */
  lemma SubstitutedFills(url: string, params: map<string, Json>, rest: seq<string>)
    requires rest != [] && Distinct(rest)
    requires forall k :: k in rest ==> k in params
    requires Includes(url, Placeholder(rest[0]))
    ensures forall k :: k in rest[1..] ==> k in params - {rest[0]}
    ensures Distinct(rest[1..])
    ensures Substituted(url, params, rest)
      == Substituted(ReplaceFirst(url, Placeholder(rest[0]), Text(params[rest[0]])), params - {rest[0]}, rest[1..])
  {
    RestKeys(params, rest);
  }

  /** A key whose placeholder does not occur: it stays, and the rest follow. */
  lemma SubstitutedSkips(url: string, params: map<string, Json>, rest: seq<string>)
    requires rest != [] && Distinct(rest)
    requires forall k :: k in rest ==> k in params
    requires !Includes(url, Placeholder(rest[0]))
    ensures forall k :: k in rest[1..] ==> k in params
    ensures Distinct(rest[1..])
    ensures Substituted(url, params, rest) == Substituted(url, params, rest[1..])
  {
    RestKeys(params, rest);
  }

  /** The `forEach` loop of `makeRedditRequest`, updating `url` and deleting from `params`. */
  method Substitute(url0: string, params0: map<string, Json>, order: seq<string>)
    returns (url: string, params: map<string, Json>)
    requires KeyOrder(params0, order)
    ensures (url, params) == Substituted(url0, params0, order)
  {
    url, params := url0, params0;
    var i := 0;
    ghost var rest := order;
    while i < |order|
      invariant i <= |order| && rest == order[i..]
      invariant forall k :: k in rest ==> k in params
      invariant Distinct(rest)
      invariant Substituted(url0, params0, order) == Substituted(url, params, rest)
    {
      var key := order[i];
      assert key == rest[0];
      if Includes(url, Placeholder(key)) {
        SubstitutedFills(url, params, rest);
        url := ReplaceFirst(url, Placeholder(key), Text(params[key]));
        params := params - {key};
      } else {
        SubstitutedSkips(url, params, rest);
      }
      assert rest[1..] == order[i + 1..];
      i := i + 1;
      rest := rest[1..];
    }
  }

  /** A text without `{` contains no placeholder. */
  lemma NoBraceNoPlaceholder(url: string, key: string)
    requires '{' !in url
    ensures !Includes(url, Placeholder(key))
  {
    var p := Placeholder(key);
    forall k: nat | k + |p| <= |url|
      ensures !OccursAt(url, p, k)
    {
      assert url[k] != '{';
      assert url[k..k + |p|][0] == url[k];
    }
  }

  /** A URL without placeholders is left as it is, and so are all parameters. */
  lemma {:induction false} SubstitutedWithoutBraces(url: string, params: map<string, Json>, order: seq<string>)
    requires '{' !in url
    requires forall k :: k in order ==> k in params
    requires forall i, j :: 0 <= i < j < |order| ==> order[i] != order[j]
    ensures Substituted(url, params, order) == (url, params)
  {
    if order != [] {
      NoBraceNoPlaceholder(url, order[0]);
      SubstitutedWithoutBraces(url, params, order[1..]);
    }
  }

  /** The first placeholder after a brace-free prefix is the one replaced. */
  lemma ReplaceAfterPrefix(a: string, p: string, b: string, v: string)
    requires '{' !in a && |p| > 0 && p[0] == '{'
    ensures Includes(a + p + b, p) && ReplaceFirst(a + p + b, p, v) == a + v + b
  {
    var s := a + p + b;
    assert OccursAt(s, p, |a|) by { assert s[|a|..|a| + |p|] == p; }
    assert s[..|a|] == a && s[|a| + |p|..] == b;
  }

  // ---------------------------------------------------------------------------
  // What substitution fills, end to end

  /** A text with no `{` and no `}`. */
  predicate BraceFree(s: string) {
    '{' !in s && '}' !in s
  }

  /** A `{` at position `a`. */
  predicate OpenAt(s: string, a: int) {
    0 <= a < |s| && s[a] == '{'
  }

  /** A `}` strictly between positions `a` and `b`. */
  predicate ClosedBetween(s: string, a: int, b: int) {
    exists m :: a < m < b && 0 <= m < |s| && s[m] == '}'
  }

  /** Every two `{` of the text have a `}` between them: no placeholder opens inside another. */
  ghost predicate Unnested(s: string) {
    forall a, b :: a < b && OpenAt(s, a) && OpenAt(s, b) ==> ClosedBetween(s, a, b)
  }

  /** An occurrence, character by character. */
  lemma OccursAtChars(s: string, p: string, i: nat)
    requires OccursAt(s, p, i)
    ensures forall t :: 0 <= t < |p| ==> s[i + t] == p[t]
  {
    forall t | 0 <= t < |p|
      ensures s[i + t] == p[t]
    {
      assert s[i..i + |p|][t] == s[i + t];
    }
  }

  /** Matching characters make an occurrence, and so the text includes the pattern. */
  lemma CharsOccurAt(s: string, p: string, i: nat)
    requires i + |p| <= |s|
    requires forall t :: 0 <= t < |p| ==> s[i + t] == p[t]
    ensures OccursAt(s, p, i) && Includes(s, p)
  {
    assert forall t :: 0 <= t < |p| ==> s[i..i + |p|][t] == p[t];
    assert s[i..i + |p|] == p;
    assert OccursAt(s, p, i);
    assert IndexOf(s, p).Some?;
  }

  /** A brace-free key's placeholder opens with its only `{` and closes with its only `}`. */
  lemma PlaceholderChars(k: string)
    requires BraceFree(k)
    ensures |Placeholder(k)| == |k| + 2
    ensures Placeholder(k)[0] == '{' && Placeholder(k)[|k| + 1] == '}'
    ensures forall t :: 0 < t <= |k| ==> Placeholder(k)[t] == k[t - 1]
    ensures forall t :: 0 < t <= |k| ==> Placeholder(k)[t] != '{' && Placeholder(k)[t] != '}'
  {
    forall t | 0 < t <= |k|
      ensures Placeholder(k)[t] == k[t - 1]
    {
    }
  }

  /** Two occurrences of brace-free placeholders that start apart do not overlap. */
  lemma PlaceholdersApart(s: string, k1: string, i: nat, k2: string, j: nat)
    requires BraceFree(k1) && BraceFree(k2) && i < j
    requires OccursAt(s, Placeholder(k1), i) && OccursAt(s, Placeholder(k2), j)
    ensures i + |k1| + 2 <= j
  {
    var p, q := Placeholder(k1), Placeholder(k2);
    PlaceholderChars(k1);
    PlaceholderChars(k2);
    OccursAtChars(s, p, i);
    OccursAtChars(s, q, j);
  }

  /** Two occurrences of brace-free placeholders at one position are of the same key. */
  lemma PlaceholdersSameStart(s: string, k1: string, k2: string, i: nat)
    requires BraceFree(k1) && BraceFree(k2)
    requires OccursAt(s, Placeholder(k1), i) && OccursAt(s, Placeholder(k2), i)
    ensures k1 == k2
  {
    var p, q := Placeholder(k1), Placeholder(k2);
    PlaceholderChars(k1);
    PlaceholderChars(k2);
    OccursAtChars(s, p, i);
    OccursAtChars(s, q, i);
    if |k1| == |k2| {
      forall t | 0 <= t < |k1|
        ensures k1[t] == k2[t]
      {
        assert s[i + (t + 1)] == p[t + 1] == q[t + 1];
      }
    }
  }

  /** Where each character of a text with `n` characters at `i` replaced by `v` comes from. */
  lemma SplicedChars(s: string, i: nat, n: nat, v: string)
    requires i + n <= |s|
    ensures var r := s[..i] + v + s[i + n..];
      && |r| == |s| - n + |v|
      && (forall x :: 0 <= x < i ==> r[x] == s[x])
      && (forall x :: i <= x < i + |v| ==> r[x] == v[x - i])
      && (forall x :: i + |v| <= x < |r| ==> r[x] == s[x - |v| + n])
  {
  }

  /** Filling one placeholder keeps every other key's placeholder that occurred. */
  lemma FillKeepsPlaceholder(s: string, k: string, v: string, k2: string)
    requires BraceFree(k) && BraceFree(k2) && k2 != k
    requires Includes(s, Placeholder(k)) && Includes(s, Placeholder(k2))
    ensures Includes(ReplaceFirst(s, Placeholder(k), v), Placeholder(k2))
  {
    var p, q := Placeholder(k), Placeholder(k2);
    var i, j := IndexOf(s, p).value, IndexOf(s, q).value;
    var r := ReplaceFirst(s, p, v);
    PlaceholderChars(k);
    PlaceholderChars(k2);
    SplicedChars(s, i, |p|, v);
    OccursAtChars(s, q, j);
    if j < i {
      PlaceholdersApart(s, k2, j, k, i);
      CharsOccurAt(r, q, j);
    } else {
      if i == j {
        PlaceholdersSameStart(s, k, k2, i);
      }
      PlaceholdersApart(s, k, i, k2, j);
      forall t | 0 <= t < |q|
        ensures r[j - |p| + |v| + t] == q[t]
      {
        assert r[j - |p| + |v| + t] == s[j + t];
      }
      CharsOccurAt(r, q, j - |p| + |v|);
    }
  }

  /** An occurrence in the text before the filled value was there already. */
  lemma OccurrenceBefore(s: string, i: nat, n: nat, v: string, r: string, q: string, j: nat)
    requires i + n <= |s| && r == s[..i] + v + s[i + n..]
    requires OccursAt(r, q, j) && j + |q| <= i
    ensures Includes(s, q)
  {
    SplicedChars(s, i, n, v);
    OccursAtChars(r, q, j);
    CharsOccurAt(s, q, j);
  }

  /** An occurrence in the text after the filled value was there already, `n - |v|` further on. */
  lemma OccurrenceAfter(s: string, i: nat, n: nat, v: string, r: string, q: string, j: nat)
    requires i + n <= |s| && r == s[..i] + v + s[i + n..]
    requires OccursAt(r, q, j) && i + |v| <= j
    ensures Includes(s, q)
  {
    SplicedChars(s, i, n, v);
    OccursAtChars(r, q, j);
    forall t | 0 <= t < |q|
      ensures s[j - |v| + n + t] == q[t]
    {
      assert r[j + t] == s[j - |v| + n + t];
    }
    CharsOccurAt(s, q, j - |v| + n);
  }

  /**
   * In an unnested text whose `{` at `i` is replaced by a brace-free value, a
   * brace-free placeholder lies wholly before the value or wholly after it.
   */
  /**
   * A placeholder of the filled text that starts before the filled spot and
   * ends after the value starts at an opening brace of the original text
   * with no closing brace between it and the filled spot.
   */
  lemma StraddleUnclosed(s: string, i: nat, n: nat, v: string, r: string, k2: string, j: nat)
    requires i + n <= |s| && r == s[..i] + v + s[i + n..]
    requires BraceFree(k2) && OccursAt(r, Placeholder(k2), j)
    requires j < i && i + |v| < j + |k2| + 2
    ensures OpenAt(s, j) && !ClosedBetween(s, j, i)
  {
    var q := Placeholder(k2);
    SplicedChars(s, i, n, v);
    PlaceholderChars(k2);
    OccursAtChars(r, q, j);
    assert s[j] == r[j] == q[0];
    forall m | j < m < i && 0 <= m < |s|
      ensures s[m] != '}'
    {
      assert s[m] == r[m] == q[m - j];
    }
  }

  /** A placeholder of the filled text lies wholly before the filled spot or wholly after its start. */
  lemma NoOccurrenceAcross(s: string, i: nat, n: nat, v: string, r: string, k2: string, j: nat)
    requires i + n <= |s| && r == s[..i] + v + s[i + n..]
    requires n > 0 && s[i] == '{' && Unnested(s) && BraceFree(v) && BraceFree(k2)
    requires OccursAt(r, Placeholder(k2), j)
    ensures j + |k2| + 2 <= i || i + |v| <= j
  {
    var q := Placeholder(k2);
    SplicedChars(s, i, n, v);
    PlaceholderChars(k2);
    OccursAtChars(r, q, j);
    if j < i && i + |v| < j + |q| {
      assert OpenAt(s, i);
      StraddleUnclosed(s, i, n, v, r, k2, j);
    }
  }

  /**
   * Filling one placeholder of an unnested text with a brace-free value makes
   * no new placeholder of a brace-free key.
   */
  lemma FillAddsNoPlaceholder(s: string, k: string, v: string, k2: string)
    requires BraceFree(k) && BraceFree(v) && BraceFree(k2) && Unnested(s)
    requires Includes(s, Placeholder(k))
    requires Includes(ReplaceFirst(s, Placeholder(k), v), Placeholder(k2))
    ensures Includes(s, Placeholder(k2))
  {
    var p, q := Placeholder(k), Placeholder(k2);
    var r := ReplaceFirst(s, p, v);
    var i, j := IndexOf(s, p).value, IndexOf(r, q).value;
    PlaceholderChars(k);
    PlaceholderChars(k2);
    OccursAtChars(s, p, i);
    if j + |q| <= i {
      OccurrenceBefore(s, i, |p|, v, r, q, j);
    } else if i + |v| <= j {
      OccurrenceAfter(s, i, |p|, v, r, q, j);
    } else {
      assert s[i + 0] == p[0];
      NoOccurrenceAcross(s, i, |p|, v, r, k2, j);
      assert false;
    }
  }

  /** Filling a placeholder with a brace-free value keeps the text unnested. */
  lemma FillKeepsUnnested(s: string, k: string, v: string)
    requires BraceFree(k) && BraceFree(v) && Unnested(s)
    requires Includes(s, Placeholder(k))
    ensures Unnested(ReplaceFirst(s, Placeholder(k), v))
  {
    var p := Placeholder(k);
    var r := ReplaceFirst(s, p, v);
    var i := IndexOf(s, p).value;
    PlaceholderChars(k);
    SplicedChars(s, i, |p|, v);
    OccursAtChars(s, p, i);
    var d := |p| - |v|;
    forall a, b | a < b && OpenAt(r, a) && OpenAt(r, b)
      ensures ClosedBetween(r, a, b)
    {
      if b < i {
        assert OpenAt(s, a) && OpenAt(s, b);
        SpliceClosedBefore(s, i, |p|, v, r, a, b);
      } else if a < i {
        assert s[a] == r[a] && s[i + 0] == p[0];
        assert OpenAt(s, a) && OpenAt(s, i);
        SpliceClosedBefore(s, i, |p|, v, r, a, i);
      } else if i + |v| <= a {
        assert s[a + d] == r[a] && s[b + d] == r[b];
        assert OpenAt(s, a + d) && OpenAt(s, b + d);
        SpliceClosedAfter(s, i, |p|, v, r, a, b);
      }
    }
  }

  /** A closing brace of the original text before the filled spot is one of the filled text. */
  lemma SpliceClosedBefore(s: string, i: nat, n: nat, v: string, r: string, a: int, c: int)
    requires i + n <= |s| && r == s[..i] + v + s[i + n..]
    requires c <= i && ClosedBetween(s, a, c)
    ensures forall b :: c <= b ==> ClosedBetween(r, a, b)
  {
    SplicedChars(s, i, n, v);
    var m :| a < m < c && 0 <= m < |s| && s[m] == '}';
    assert r[m] == s[m];
  }

  /** A closing brace of the original text after the filled spot is one of the filled text, shifted. */
  lemma SpliceClosedAfter(s: string, i: nat, n: nat, v: string, r: string, a: int, b: int)
    requires i + n <= |s| && r == s[..i] + v + s[i + n..]
    requires i + |v| <= a && ClosedBetween(s, a + n - |v|, b + n - |v|)
    ensures ClosedBetween(r, a, b)
  {
    SplicedChars(s, i, n, v);
    var d := n - |v|;
    var m :| a + d < m < b + d && 0 <= m < |s| && s[m] == '}';
    assert r[m - d] == s[m];
  }

  /** The conditions under which substitution consumes exactly the keys whose placeholders occur. */
  ghost predicate Fillable(url: string, params: map<string, Json>, order: seq<string>) {
    && (forall k :: k in order ==> k in params && BraceFree(k) && BraceFree(Text(params[k])))
    && Distinct(order)
    && Unnested(url)
  }

  /**
   * Substituting a prefix of the keys keeps the URL unnested and changes no
   * later key's placeholder: it occurs after exactly when it occurred before.
   */
  lemma {:induction false} SubstitutedPreserves(url: string, params: map<string, Json>, order: seq<string>, later: string)
    requires Fillable(url, params, order)
    requires BraceFree(later) && later !in order
    ensures Unnested(Substituted(url, params, order).0)
    ensures Includes(Substituted(url, params, order).0, Placeholder(later)) <==> Includes(url, Placeholder(later))
    decreases |order|
  {
    if order != [] {
      var k := order[0];
      RestKeys(params, order);
      if Includes(url, Placeholder(k)) {
        var v := Text(params[k]);
        var url' := ReplaceFirst(url, Placeholder(k), v);
        FillKeepsUnnested(url, k, v);
        if Includes(url, Placeholder(later)) {
          FillKeepsPlaceholder(url, k, v, later);
        }
        if Includes(url', Placeholder(later)) {
          FillAddsNoPlaceholder(url, k, v, later);
        }
        SubstitutedPreserves(url', params - {k}, order[1..], later);
      } else {
        SubstitutedPreserves(url, params, order[1..], later);
      }
    }
  }

  /**
   * The keys substitution takes out of the parameters: exactly those whose
   * placeholder occurs in the URL, provided keys and values hold no braces and
   * no placeholder opens inside another.
   */
  lemma {:induction false} ConsumedExactly(url: string, params: map<string, Json>, order: seq<string>)
    requires Fillable(url, params, order)
    ensures forall k :: k in order ==> (k !in Substituted(url, params, order).1 <==> Includes(url, Placeholder(k)))
    decreases |order|
  {
    if order != [] {
      var k0 := order[0];
      RestKeys(params, order);
      var r := Substituted(url, params, order);
      if Includes(url, Placeholder(k0)) {
        var v := Text(params[k0]);
        var url' := ReplaceFirst(url, Placeholder(k0), v);
        FillKeepsUnnested(url, k0, v);
        ConsumedExactly(url', params - {k0}, order[1..]);
        SubstitutedKeeps(url', params - {k0}, order[1..]);
        forall k | k in order[1..]
          ensures Includes(url', Placeholder(k)) <==> Includes(url, Placeholder(k))
        {
          if Includes(url, Placeholder(k)) {
            FillKeepsPlaceholder(url, k0, v, k);
          }
          if Includes(url', Placeholder(k)) {
            FillAddsNoPlaceholder(url, k0, v, k);
          }
        }
      } else {
        ConsumedExactly(url, params, order[1..]);
        SubstitutedKeeps(url, params, order[1..]);
      }
    }
  }

  /** Substituting one more key is one more step of the loop. */
  lemma {:induction false} SubstitutedSnoc(url: string, params: map<string, Json>, order: seq<string>, k: string)
    requires forall x :: x in order ==> x in params
    requires Distinct(order) && k in params && k !in order
    ensures forall x :: x in order + [k] ==> x in params
    ensures Distinct(order + [k])
    ensures var (u, q) := Substituted(url, params, order);
      && k in q
      && Substituted(url, params, order + [k])
         == if Includes(u, Placeholder(k)) then (ReplaceFirst(u, Placeholder(k), Text(q[k])), q - {k}) else (u, q)
    decreases |order|
  {
    SubstitutedKeeps(url, params, order);
    if order != [] {
      var x := order[0];
      RestKeys(params, order);
      assert (order + [k])[0] == x && (order + [k])[1..] == order[1..] + [k];
      if Includes(url, Placeholder(x)) {
        SubstitutedSnoc(ReplaceFirst(url, Placeholder(x), Text(params[x])), params - {x}, order[1..], k);
      } else {
        SubstitutedSnoc(url, params, order[1..], k);
      }
    }
  }

  /**
   * Each key's turn fills the first occurrence of its placeholder in the URL
   * as it then stands, with the text of its own value, and removes the key;
   * it does so exactly when the placeholder occurred in the original URL.
   */
  lemma FillsInTurn(url: string, params: map<string, Json>, order: seq<string>, n: nat)
    requires Fillable(url, params, order) && n < |order|
    ensures forall x :: x in order[..n + 1] ==> x in params
    ensures Distinct(order[..n]) && Distinct(order[..n + 1])
    ensures var (u, q) := Substituted(url, params, order[..n]);
      var k := order[n];
      Substituted(url, params, order[..n + 1])
        == if Includes(url, Placeholder(k))
           then (ReplaceFirst(u, Placeholder(k), Text(params[k])), q - {k})
           else (u, q)
  {
    var k := order[n];
    assert order[..n + 1] == order[..n] + [k];
    assert forall x :: x in order[..n] ==> x in order;
    assert k !in order[..n];
    SubstitutedSnoc(url, params, order[..n], k);
    SubstitutedKeeps(url, params, order[..n]);
    SubstitutedPreserves(url, params, order[..n], k);
  }

  /** `replace` fills only the first of two equal placeholders, so the key is consumed and one stays. */
  lemma DuplicatePlaceholderKept(key: string, value: string)
    requires key == "a" && value == "x"
    ensures Substituted("{a}{a}", map[key := JStr(value)], [key]) == ("x{a}", map[])
    ensures Includes("x{a}", Placeholder(key))
  {
    ReplaceAfterPrefix("", Placeholder(key), "{a}", value);
    assert "" + Placeholder(key) + "{a}" == "{a}{a}";
    assert "" + value + "{a}" == "x{a}";
    CharsOccurAt("x{a}", Placeholder(key), 1);
  }

  /**
   * Without `Unnested`, filling one placeholder can make another: `{b}` inside
   * `{a{b}c}` filled with "" leaves `{ac}`, so `ac` is consumed although its
   * placeholder did not occur in the URL.
   */
  lemma NestedPlaceholderCreated(url: string, params: map<string, Json>)
    requires url == "{a{b}c}" && params == map["b" := JStr(""), "ac" := JStr("y")]
    ensures !Unnested(url)
    ensures !Includes(url, Placeholder("ac"))
    ensures "ac" !in Substituted(url, params, ["b", "ac"]).1
  {
    assert OpenAt(url, 0) && OpenAt(url, 2);
    assert !ClosedBetween(url, 0, 2) by { assert url[1] == 'a'; }
    NestedLacksOuterKey(url);
    NestedFillInner(url);
    var url' := Placeholder("ac");
    CharsOccurAt(url', Placeholder("ac"), 0);
    assert Text(params["b"]) == "";
    var order := ["b", "ac"];
    assert order[1..] == ["ac"];
    assert Substituted(url, params, order) == Substituted(url', params - {"b"}, ["ac"]);
    assert Substituted(url, params, order).1 == (params - {"b"}) - {"ac"};
  }

  /** `{a{b}c}` holds no `{ac}`. */
  lemma NestedLacksOuterKey(url: string)
    requires url == "{a{b}c}"
    ensures !Includes(url, Placeholder("ac"))
  {
    forall i: nat | i + 4 <= |url|
      ensures !OccursAt(url, Placeholder("ac"), i)
    {
      assert i == 0 || i == 1 || i == 2 || i == 3;
      assert url[i..i + 4][1] == url[i + 1] && url[i..i + 4][2] == url[i + 2];
    }
  }

  /** Filling `{b}` in `{a{b}c}` with the empty text leaves `{ac}`. */
  lemma NestedFillInner(url: string)
    requires url == "{a{b}c}"
    ensures ReplaceFirst(url, Placeholder("b"), "") == Placeholder("ac")
  {
    var b := Placeholder("b");
    assert b[0] == '{' && b[1] == 'b';
    assert url[0..3][1] == 'a' && url[1..4][0] == 'a';
    assert url[0..3] != b && url[1..4] != b && url[2..5] == b;
    assert !OccursAt(url, b, 0) && !OccursAt(url, b, 1) && OccursAt(url, b, 2);
    assert IndexOf(url, b).Some? && IndexOf(url, b).value <= 2;
    assert IndexOf(url, b) == Some(2);
    assert url[..2] + "" + url[5..] == Placeholder("ac");
  }

  // ---------------------------------------------------------------------------
  // Requests

  /** The GET request handed to the HTTP client. */
  datatype Request = Request(url: string, query: map<string, Json>, token: string)

  /** The URL before substitution, as written: the base followed by the endpoint's name. */
  function RequestBase(endpoint: string): string {
    BaseUrl + endpoint
  }

  /** The URL before substitution as evidently intended: the host followed by the endpoint's template. */
  function RequestBaseIntended(endpoint: EndpointName): string
  {
    Host + UrlOf(endpoint)
  }

  /**
   * `makeRedditRequest`. `token` is the token manager's answer and `fetch` the
   * HTTP client's (the data, or the error's message); a failed request is
   * answered with the text "error: " + message rather than thrown.
   */
  method MakeRedditRequest(base: string, params: map<string, Json>, order: seq<string>,
                           token: Result<string, string>, fetch: Request -> Result<Json, string>)
    returns (r: Result<Json, string>)
    requires KeyOrder(params, order)
    ensures token.Err? ==> r == Err(token.error)
    ensures token.Ok? ==>
      var (url, query) := Substituted(base, params, order);
      var answer := fetch(Request(url, query, token.value));
      r == Ok(if answer.Ok? then answer.value else JStr("error: " + answer.error))
  {
    if token.Err? {
      return Err(token.error);
    }
    var url, query := Substitute(base, params, order);
    var answer := fetch(Request(url, query, token.value));
    if answer.Ok? {
      r := Ok(answer.value);
    } else {
      r := Ok(JStr("error: " + answer.error));
    }
  }

  /** The URL and query a request for `endpoint` is sent with, as written. */
  function SentRequest(endpoint: string, params: map<string, Json>, order: seq<string>, token: string): Request
    requires KeyOrder(params, order)
  {
    var (url, query) := Substituted(RequestBase(endpoint), params, order);
    Request(url, query, token)
  }

  /** Two texts without `{` make one without `{`. */
  lemma BraceFreeConcat(a: string, b: string)
    requires '{' !in a && '{' !in b
    ensures '{' !in a + b
  {
    forall i | 0 <= i < |a + b|
      ensures (a + b)[i] != '{'
    {
      if i < |a| { assert (a + b)[i] == a[i]; } else { assert (a + b)[i] == b[i - |a|]; }
    }
  }

  lemma BaseUrlBraceFree()
    ensures '{' !in BaseUrl
  {
  }

  lemma HostBraceFree()
    ensures '{' !in Host && '{' !in "/r/" && '{' !in "/hot"
  {
  }

  /** No endpoint name holds a `{`. */
  lemma NamesBraceFree(name: EndpointName)
    ensures '{' !in name
  {
    if name in {"getBest", "getByIds", "getComments"} {
      FirstNamesBraceFree(name);
    } else {
      LastNamesBraceFree(name);
    }
  }

  lemma FirstNamesBraceFree(name: string)
    requires name in {"getBest", "getByIds", "getComments"}
    ensures '{' !in name
  {
  }

  lemma LastNamesBraceFree(name: string)
    requires name in {"getHot", "getNew", "getTop", "search"}
    ensures '{' !in name
  {
  }

  /**
   * As written, no endpoint of the table has its placeholders filled: the path
   * is the endpoint's name and every parameter goes to the query.
   */
  lemma TemplatesUnused(endpoint: EndpointName, params: map<string, Json>, order: seq<string>, token: string)
    requires KeyOrder(params, order)
    ensures SentRequest(endpoint, params, order, token) == Request(BaseUrl + endpoint, params, token)
  {
    NamesBraceFree(endpoint);
    BaseUrlBraceFree();
    BraceFreeConcat(BaseUrl, endpoint);
    SubstitutedWithoutBraces(BaseUrl + endpoint, params, order);
  }

  /** The discrepancy on `getHot`: the path is the endpoint's name and the subreddit ends up in the query. */
  lemma HotSubredditInQuery(endpoint: string, sub: string, token: string)
    requires endpoint == "getHot"
    ensures SentRequest(endpoint, map["subreddit" := JStr(sub)], ["subreddit"], token)
      == Request(BaseUrl + endpoint, map["subreddit" := JStr(sub)], token)
  {
    TemplatesUnused(endpoint, map["subreddit" := JStr(sub)], ["subreddit"], token);
  }

  /** The request as evidently intended: the template's placeholders are filled. */
  function SentRequestIntended(endpoint: EndpointName, params: map<string, Json>, order: seq<string>, token: string): Request
    requires KeyOrder(params, order)
  {
    var (url, query) := Substituted(RequestBaseIntended(endpoint), params, order);
    Request(url, query, token)
  }

  /** The `getHot` template: a brace-free prefix, the subreddit placeholder, then "/hot". */
  lemma HotTemplate(endpoint: string)
    requires endpoint == "getHot"
    ensures endpoint in EndpointNames
    ensures RequestBaseIntended(endpoint) == (Host + "/r/") + Placeholder("subreddit") + "/hot"
    ensures '{' !in Host + "/r/"
  {
    HostBraceFree();
    BraceFreeConcat(Host, "/r/");
  }

  /**
   * A URL with one placeholder after a brace-free prefix gets it filled when
   * its key comes first; the key leaves the query and nothing else changes.
   */
  lemma FillOnePlaceholder(prefix: string, key: string, tail: string, value: string,
                           rest: map<string, Json>, restOrder: seq<string>)
    requires '{' !in prefix && '{' !in tail && '{' !in value
    requires key !in rest && KeyOrder(rest, restOrder)
    ensures KeyOrder(rest[key := JStr(value)], [key] + restOrder)
    ensures Substituted(prefix + Placeholder(key) + tail, rest[key := JStr(value)], [key] + restOrder)
      == (prefix + value + tail, rest)
  {
    var params := rest[key := JStr(value)];
    var order := [key] + restOrder;
    ReplaceAfterPrefix(prefix, Placeholder(key), tail, value);
    assert order[0] == key && order[1..] == restOrder;
    assert params - {key} == rest;
    var url := prefix + value + tail;
    BraceFreeConcat(prefix, value);
    BraceFreeConcat(prefix + value, tail);
    SubstitutedWithoutBraces(url, rest, restOrder);
  }

  /**
   * With the template used, the subreddit of a `getHot` request is put into
   * the path and taken out of the query; the other parameters stay in the query.
   */
  lemma IntendedHotPath(endpoint: string, sub: string, rest: map<string, Json>, restOrder: seq<string>, token: string)
    requires endpoint == "getHot"
    requires "subreddit" !in rest && KeyOrder(rest, restOrder)
    requires '{' !in sub
    ensures endpoint in EndpointNames
    ensures var params := rest["subreddit" := JStr(sub)];
      && KeyOrder(params, ["subreddit"] + restOrder)
      && SentRequestIntended(endpoint, params, ["subreddit"] + restOrder, token)
        == Request(Host + "/r/" + sub + "/hot", rest, token)
  {
    HotTemplate(endpoint);
    HostBraceFree();
    FillOnePlaceholder(Host + "/r/", "subreddit", "/hot", sub, rest, restOrder);
  }

  /** The tool of one endpoint: its name, description and parameter schema. */
  function ToolOf(name: EndpointName): FunctionSchema
  {
    FunctionSchema(name, DescriptionOf(name), SchemaOf(name))
  }

  /** `getRedditTools(names)`: each name's description and schema, in the order given. */
  function GetRedditTools(names: seq<EndpointName>): (tools: seq<FunctionSchema>)
    ensures |tools| == |names|
    ensures forall i :: 0 <= i < |names| ==> tools[i] == ToolOf(names[i])
  {
    seq(|names|, i requires 0 <= i < |names| => ToolOf(names[i]))
  }

  /**
   * The properties every plain object inherits from `Object.prototype`: the
   * `in` operator finds them in the schema table as well.
   */
  const InheritedNames := {"__defineGetter__", "__defineSetter__", "__lookupGetter__", "__lookupSetter__",
    "__proto__", "constructor", "hasOwnProperty", "isPrototypeOf", "propertyIsEnumerable",
    "toLocaleString", "toString", "valueOf"}

  /** `name in redditApiSchema`: an endpoint of the table or a name the table inherits. */
  predicate InSchemaTable(name: string) {
    name in EndpointNames || name in InheritedNames
  }

  /**
   * `executeRedditTool(name, parameters)`: a name the table does not have
   * throws; any other, an inherited one included, is requested at the base URL
   * followed by that name.
   */
  method ExecuteRedditTool(name: string, params: map<string, Json>, order: seq<string>,
                           token: Result<string, string>, fetch: Request -> Result<Json, string>)
    returns (r: Result<Json, string>)
    requires KeyOrder(params, order)
    ensures !InSchemaTable(name) ==> r == Err("Unknown Reddit API method: " + name)
    ensures InSchemaTable(name) && token.Ok? ==>
      var answer := fetch(SentRequest(name, params, order, token.value));
      r == Ok(if answer.Ok? then answer.value else JStr("error: " + answer.error))
    ensures InSchemaTable(name) && token.Err? ==> r == Err(token.error)
  {
    if InSchemaTable(name) {
      r := MakeRedditRequest(RequestBase(name), params, order, token, fetch);
      return;
    }
    return Err("Unknown Reddit API method: " + name);
  }
}
