/**
 * The shortcut grid's icon choice: a user-uploaded icon first, then a
 * chain of five favicon providers tried in order on each load error, then
 * a placeholder glyph.
 */
module FaviconChain {
  import opened Wrappers
  import opened Shortcuts

  /** What `new URL(url)` yields when it does not throw. */
  datatype ParsedUrl = ParsedUrl(hostname: string, origin: string)

  /** Number of providers in the chain. */
  const ProviderCount: nat := 5

  const GooglePrefix: string := "https://www.google.com/s2/favicons?domain="
  const GoogleSuffix: string := "&sz=128"
  const DuckDuckGoPrefix: string := "https://icons.duckduckgo.com/ip3/"
  const IconHorsePrefix: string := "https://icon.horse/icon/"
  const FaviconPath: string := "/favicon.ico"
  const ClearbitPrefix: string := "https://logo.clearbit.com/"

  /** The candidate of provider `i` (0 Google, 1 DuckDuckGo, 2 icon.horse,
      3 the site's own `/favicon.ico`, 4 Clearbit). */
  function ProviderUrl(i: nat, p: ParsedUrl): string
    requires i < ProviderCount
  {
    match i
    case 0 => GooglePrefix + p.hostname + GoogleSuffix
    case 1 => DuckDuckGoPrefix + p.hostname + ".ico"
    case 2 => IconHorsePrefix + p.hostname
    case 3 => p.origin + FaviconPath
    case 4 => ClearbitPrefix + p.hostname
  }

  /** `getFaviconUrls(url)`; `parse` is the URL parser, `None` when it throws. */
  function FaviconUrls(parse: string -> Option<ParsedUrl>, url: string): (r: seq<string>)
    ensures parse(url).None? <==> r == []
    ensures parse(url).Some? ==> |r| == ProviderCount
    ensures forall i :: 0 <= i < |r| ==> r[i] == ProviderUrl(i, parse(url).value)
  {
    match parse(url)
    case None => []
    case Some(p) => seq(ProviderCount, i requires 0 <= i < ProviderCount => ProviderUrl(i, p))
  }

  /** Every provider but the fourth sees only the hostname: two addresses
      with the same hostname share those candidates, and two with the same
      hostname and origin share the whole list. */
  lemma CandidatesFollowHost(parse: string -> Option<ParsedUrl>, u: string, v: string)
    requires parse(u).Some? && parse(v).Some? && parse(u).value.hostname == parse(v).value.hostname
    ensures forall i :: 0 <= i < ProviderCount && i != 3 ==> FaviconUrls(parse, u)[i] == FaviconUrls(parse, v)[i]
    ensures parse(u).value.origin == parse(v).value.origin ==> FaviconUrls(parse, u) == FaviconUrls(parse, v)
  {
  }

  /** The memoised id → candidates table: `map[shortcut.id] = ...` in list
      order, so a later shortcut with the same id wins. */
  function UrlsMap(parse: string -> Option<ParsedUrl>, list: seq<Shortcut>): map<string, seq<string>>
  {
    if list == [] then map[]
    else
      var last := list[|list| - 1];
      UrlsMap(parse, list[..|list| - 1])[last.id := FaviconUrls(parse, last.url)]
  }

  /** Every candidate list in the table is empty or has all five providers. */
  predicate WellShaped(urlsMap: map<string, seq<string>>) {
    forall id :: id in urlsMap ==> urlsMap[id] == [] || |urlsMap[id]| == ProviderCount
  }

  /** The table has exactly one key per shortcut id and every list in it
      is well shaped. */
  lemma {:induction false} UrlsMapSpec(parse: string -> Option<ParsedUrl>, list: seq<Shortcut>)
    ensures UrlsMap(parse, list).Keys == set s | s in list :: s.id
    ensures WellShaped(UrlsMap(parse, list))
  {
    if list != [] {
      var init := list[..|list| - 1];
      UrlsMapSpec(parse, init);
      assert list == init + [list[|list| - 1]];
      assert forall s :: s in list <==> s in init || s == list[|list| - 1];
    }
  }

  /** With unique ids each shortcut gets its own address's candidates. */
  lemma {:induction false} UrlsMapUnique(parse: string -> Option<ParsedUrl>, list: seq<Shortcut>)
    requires UniqueIds(list)
    ensures forall i :: 0 <= i < |list| ==>
      list[i].id in UrlsMap(parse, list) && UrlsMap(parse, list)[list[i].id] == FaviconUrls(parse, list[i].url)
  {
    if list != [] {
      var n := |list| - 1;
      var init := list[..n];
      assert UniqueIds(init) by {
        forall i, j | 0 <= i < j < |init| ensures ShortcutId(init[i]) != ShortcutId(init[j]) {
          assert init[i] == list[i] && init[j] == list[j];
        }
      }
      UrlsMapUnique(parse, init);
      forall i | 0 <= i < |list|
        ensures list[i].id in UrlsMap(parse, list) && UrlsMap(parse, list)[list[i].id] == FaviconUrls(parse, list[i].url)
      {
        if i < n {
          assert ShortcutId(list[i]) != ShortcutId(list[n]);
          assert list[i] == init[i];
        }
      }
    }
  }

  /** Builds the table with the source's `forEach`. */
  method BuildUrlsMap(parse: string -> Option<ParsedUrl>, list: seq<Shortcut>) returns (m: map<string, seq<string>>)
    ensures m == UrlsMap(parse, list)
  {
    m := map[];
    var i := 0;
    while i < |list|
      invariant 0 <= i <= |list|
      invariant m == UrlsMap(parse, list[..i])
    {
      assert list[..i + 1][..i] == list[..i];
      m := m[list[i].id := FaviconUrls(parse, list[i].url)];
      i := i + 1;
    }
    assert list[..i] == list;
  }

  /** `record[key] || fallback` for the two records of the grid. */
  function UrlsOf(urlsMap: map<string, seq<string>>, id: string): seq<string> {
    if id in urlsMap then urlsMap[id] else []
  }

  function IndexOf(indexes: map<string, nat>, id: string): nat {
    if id in indexes then indexes[id] else 0
  }

  /** The retry index after one load error, given the current index and the
      number of candidates: it advances only while a next candidate exists. */
  function NextIndex(cur: nat, len: nat): (n: nat)
    ensures cur < len ==> n < len
    ensures n == cur || n == cur + 1
    ensures n == cur + 1 <==> cur + 1 < len
  {
    if cur + 1 < len then cur + 1 else cur
  }

  /** The index after `k` consecutive load errors. */
  function AdvanceN(cur: nat, len: nat, k: nat): nat
    decreases k
  {
    if k == 0 then cur else AdvanceN(NextIndex(cur, len), len, k - 1)
  }

  /** From a valid index, `k` errors walk `k` providers down the chain and
      then stay on the last one. */
  lemma {:induction false} AdvanceNSpec(cur: nat, len: nat, k: nat)
    requires cur < len
    ensures AdvanceN(cur, len, k) == if cur + k < len then cur + k else len - 1
    decreases k
  {
    if k > 0 {
      AdvanceNSpec(NextIndex(cur, len), len, k - 1);
    }
  }

  /** Stored retry indexes are only ever set to `next` with `1 <= next < 5`. */
  predicate IndexesInRange(indexes: map<string, nat>) {
    forall id :: id in indexes ==> 1 <= indexes[id] < ProviderCount
  }

  /** What a tile shows. */
  datatype Tile = CustomIcon(src: string) | Favicon(src: string) | Placeholder

  /** The per-shortcut render decision. */
  function TileOf(s: Shortcut, urlsMap: map<string, seq<string>>, indexes: map<string, nat>, failed: set<string>): Tile {
    var hasCustomIcon := HasCustomIcon(s) && s.id !in failed;
    var urls := UrlsOf(urlsMap, s.id);
    var current := IndexOf(indexes, s.id);
    var currentFaviconUrl := if current < |urls| then urls[current] else "";
    if hasCustomIcon then CustomIcon(s.customIcon.value)
    else if current >= |urls| then Placeholder
    else Favicon(currentFaviconUrl)
  }

  /** The custom icon shows exactly when it is non-empty and has not failed;
      otherwise the tile shows the candidate at the retry index, and the
      placeholder appears only for a shortcut without candidates (an
      address the parser rejects). */
  lemma TileSpec(s: Shortcut, urlsMap: map<string, seq<string>>, indexes: map<string, nat>, failed: set<string>)
    requires WellShaped(urlsMap) && IndexesInRange(indexes)
    ensures TileOf(s, urlsMap, indexes, failed).CustomIcon? <==> HasCustomIcon(s) && s.id !in failed
    ensures TileOf(s, urlsMap, indexes, failed) == Placeholder ==> UrlsOf(urlsMap, s.id) == []
    ensures TileOf(s, urlsMap, indexes, failed).Favicon? ==>
      TileOf(s, urlsMap, indexes, failed).src == UrlsOf(urlsMap, s.id)[IndexOf(indexes, s.id)]
  {
  }

  class FaviconGrid {
    /** The URL parser. */
    const parse: string -> Option<ParsedUrl>
    /** The `shortcuts` prop. */
    var shortcuts: seq<Shortcut>
    /** `faviconUrlsMap`, recomputed whenever `shortcuts` changes. */
    var urlsMap: map<string, seq<string>>
    /** `faviconIndexesRef.current`; it survives changes of `shortcuts`. */
    var indexes: map<string, nat>
    /** `customIconFailed`. */
    var customIconFailed: set<string>

    ghost predicate Valid()
      reads this
    {
      urlsMap == UrlsMap(parse, shortcuts) && IndexesInRange(indexes)
    }

    constructor (parse: string -> Option<ParsedUrl>, shortcuts: seq<Shortcut>)
      ensures Valid()
      ensures this.parse == parse && this.shortcuts == shortcuts
      ensures indexes == map[] && customIconFailed == {}
    {
      var m := BuildUrlsMap(parse, shortcuts);
      this.parse := parse;
      this.shortcuts := shortcuts;
      urlsMap := m;
      indexes := map[];
      customIconFailed := {};
    }

    /** What the tile of `s` shows now. */
    function Tile(s: Shortcut): Tile
      reads this
    {
      TileOf(s, urlsMap, indexes, customIconFailed)
    }

    /** A new `shortcuts` prop: the table is rebuilt, the retry indexes and
        the failed set are kept. */
    method SetShortcuts(list: seq<Shortcut>)
      requires Valid()
      modifies this
      ensures Valid()
      ensures shortcuts == list && urlsMap == UrlsMap(parse, list)
      ensures indexes == old(indexes) && customIconFailed == old(customIconFailed)
    {
      shortcuts := list;
      urlsMap := BuildUrlsMap(parse, list);
    }

    /** `handleFaviconError(id)`: move to the next provider if there is one. */
    method HandleFaviconError(id: string)
      requires Valid()
      modifies this
      ensures Valid()
      ensures indexes == if IndexOf(old(indexes), id) + 1 < |UrlsOf(urlsMap, id)|
        then old(indexes)[id := IndexOf(old(indexes), id) + 1] else old(indexes)
      ensures IndexOf(indexes, id) == NextIndex(IndexOf(old(indexes), id), |UrlsOf(urlsMap, id)|)
      ensures shortcuts == old(shortcuts) && urlsMap == old(urlsMap) && customIconFailed == old(customIconFailed)
    {
      UrlsMapSpec(parse, shortcuts);
      var urls := UrlsOf(urlsMap, id);
      var currentIndex := IndexOf(indexes, id);
      var nextIndex := currentIndex + 1;
      if nextIndex < |urls| {
        indexes := indexes[id := nextIndex];
      }
    }

    /** `handleCustomIconError(id)`: the id joins the failed set for good. */
    method HandleCustomIconError(id: string)
      modifies this
      ensures customIconFailed == old(customIconFailed) + {id}
      ensures shortcuts == old(shortcuts) && urlsMap == old(urlsMap) && indexes == old(indexes)
    {
      customIconFailed := customIconFailed + {id};
    }

    /** In every reachable state the placeholder means "no candidates". */
    lemma PlaceholderOnlyWithoutCandidates(s: Shortcut)
      requires Valid()
      ensures Tile(s) == Placeholder ==> UrlsOf(urlsMap, s.id) == []
      ensures Tile(s) == Placeholder && s in shortcuts && UniqueIds(shortcuts) ==> parse(s.url).None?
    {
      UrlsMapSpec(parse, shortcuts);
      TileSpec(s, urlsMap, indexes, customIconFailed);
      if Tile(s) == Placeholder && s in shortcuts && UniqueIds(shortcuts) {
        UrlsMapUnique(parse, shortcuts);
        var i :| 0 <= i < |shortcuts| && shortcuts[i] == s;
        assert urlsMap[s.id] == FaviconUrls(parse, s.url);
      }
    }
  }
}
