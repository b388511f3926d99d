/**
 * The quota-safe save of the shortcut list: write the list; when the store
 * is over quota, drop the custom icon of the first icon-bearing shortcut
 * and try again, until a write succeeds or no icon is left to drop.
 */
module QuotaSafeStore {
  import opened Wrappers
  import opened Shortcuts
  import opened BrowserStorage

  /** How many shortcuts carry a (truthy) custom icon. */
  function IconCount(data: seq<Shortcut>): nat {
    if data == [] then 0
    else (if HasCustomIcon(data[0]) then 1 else 0) + IconCount(data[1..])
  }

  lemma {:induction false} IconCountAppend(a: seq<Shortcut>, b: seq<Shortcut>)
    ensures IconCount(a + b) == IconCount(a) + IconCount(b)
  {
    if a == [] {
      assert a + b == b;
    } else {
      assert (a + b)[1..] == a[1..] + b;
      IconCountAppend(a[1..], b);
    }
  }

  /** Index of the first shortcut with a custom icon (`filter(...)[0]`). */
  function FirstBearer(data: seq<Shortcut>): (f: nat)
    requires IconCount(data) > 0
    ensures f < |data| && HasCustomIcon(data[f])
    ensures forall j :: 0 <= j < f ==> !HasCustomIcon(data[j])
  {
    if HasCustomIcon(data[0]) then 0 else 1 + FirstBearer(data[1..])
  }

  /** `{ ...s, customIcon: undefined }`. */
  function ClearIcon(s: Shortcut): Shortcut {
    s.(customIcon := None)
  }

  /** One cleaning round: every shortcut whose id equals the first
      icon-bearer's id loses its icon; the rest are kept as they are. */
  function StripFirstIcon(data: seq<Shortcut>): (r: seq<Shortcut>)
    requires IconCount(data) > 0
    ensures |r| == |data|
  {
    var id := data[FirstBearer(data)].id;
    seq(|data|, i requires 0 <= i < |data| => if data[i].id == id then ClearIcon(data[i]) else data[i])
  }

  /** Cleaning keeps the length, the order and every id, title and url;
      it only ever clears icons, and it clears the first icon-bearer's. */
  lemma StripFirstIconSpec(data: seq<Shortcut>)
    requires IconCount(data) > 0
    ensures var r := StripFirstIcon(data);
      && |r| == |data|
      && (forall i :: 0 <= i < |data| ==>
            r[i].id == data[i].id && r[i].title == data[i].title && r[i].url == data[i].url)
      && (forall i :: 0 <= i < |data| ==> r[i] == data[i] || r[i] == ClearIcon(data[i]))
      && r[FirstBearer(data)] == ClearIcon(data[FirstBearer(data)])
  {
  }

  /** With unique ids exactly one shortcut changes: the first icon-bearer. */
  lemma StripFirstIconUnique(data: seq<Shortcut>)
    requires IconCount(data) > 0 && UniqueIds(data)
    ensures var f := FirstBearer(data);
      StripFirstIcon(data) == data[f := ClearIcon(data[f])]
  {
  }

  /** Each cleaning round removes at least one custom icon, which is what
      makes the retry terminate. */
  lemma StripFirstIconShrinks(data: seq<Shortcut>)
    requires IconCount(data) > 0
    ensures IconCount(StripFirstIcon(data)) < IconCount(data)
  {
    var r := StripFirstIcon(data);
    var f := FirstBearer(data);
    FewerIcons(data, r, f);
  }

  /** A pointwise cleaning that clears the icon at `f` has fewer icons. */
  lemma {:induction false} FewerIcons(data: seq<Shortcut>, r: seq<Shortcut>, f: nat)
    requires |r| == |data| && f < |data| && HasCustomIcon(data[f]) && r[f] == ClearIcon(data[f])
    requires forall i :: 0 <= i < |data| ==> r[i] == data[i] || r[i] == ClearIcon(data[i])
    ensures IconCount(r) < IconCount(data)
  {
    NoMoreIcons(data[1..], r[1..]);
    if f > 0 {
      FewerIcons(data[1..], r[1..], f - 1);
    }
  }

  lemma {:induction false} NoMoreIcons(data: seq<Shortcut>, r: seq<Shortcut>)
    requires |r| == |data|
    requires forall i :: 0 <= i < |data| ==> r[i] == data[i] || r[i] == ClearIcon(data[i])
    ensures IconCount(r) <= IconCount(data)
  {
    if data != [] {
      assert r[0] == data[0] || r[0] == ClearIcon(data[0]);
      NoMoreIcons(data[1..], r[1..]);
    }
  }

  /** `k` cleaning rounds (fewer if the icons run out first). */
  function StripFirstN(data: seq<Shortcut>, k: nat): seq<Shortcut>
    decreases k
  {
    if k == 0 || IconCount(data) == 0 then data
    else StripFirstN(StripFirstIcon(data), k - 1)
  }

  /** What one call of `saveToLocalStorage(key, data)` does in total. */
  datatype SaveReport = SaveReport(ok: bool, stored: Option<seq<Shortcut>>, attempts: nat)

  /** The whole recursive save: the result, the list finally written (if
      any) and the number of `setItem` calls made. */
  function SaveSpec(attempt: seq<Shortcut> -> WriteOutcome, data: seq<Shortcut>): SaveReport
    decreases IconCount(data)
  {
    match attempt(data)
    case Written => SaveReport(true, Some(data), 1)
    case WriteFailed => SaveReport(false, None, 1)
    case QuotaExceeded =>
      if IconCount(data) == 0 then SaveReport(false, None, 1)
      else
        StripFirstIconShrinks(data);
        var rest := SaveSpec(attempt, StripFirstIcon(data));
        rest.(attempts := rest.attempts + 1)
  }

  /** A first write that succeeds stores the payload unmodified; any other
      failure than the quota, or a quota failure with no icon to drop,
      ends with `false` after that single write. */
  lemma SaveFirstAttempt(attempt: seq<Shortcut> -> WriteOutcome, data: seq<Shortcut>)
    ensures attempt(data) == Written ==> SaveSpec(attempt, data) == SaveReport(true, Some(data), 1)
    ensures attempt(data) == WriteFailed ==> SaveSpec(attempt, data) == SaveReport(false, None, 1)
    ensures attempt(data) == QuotaExceeded && IconCount(data) == 0 ==>
      SaveSpec(attempt, data) == SaveReport(false, None, 1)
  {
  }

  /** The save makes at most one write per custom icon plus one, reports
      success exactly when something was written, and what it wrote is the
      input after as many cleaning rounds as there were failed writes. */
  lemma {:induction false} SaveSpecBounds(attempt: seq<Shortcut> -> WriteOutcome, data: seq<Shortcut>)
    ensures var rep := SaveSpec(attempt, data);
      && 1 <= rep.attempts <= IconCount(data) + 1
      && (rep.ok <==> rep.stored.Some?)
      && (rep.ok ==> rep.stored.value == StripFirstN(data, rep.attempts - 1))
      && (rep.ok ==> attempt(rep.stored.value) == Written)
    decreases IconCount(data)
  {
    if attempt(data) == QuotaExceeded && IconCount(data) > 0 {
      StripFirstIconShrinks(data);
      SaveSpecBounds(attempt, StripFirstIcon(data));
    }
  }

  /** With unique ids, `k` rounds clear exactly the icons of the first `k`
      icon-bearing shortcuts in list order and leave every other shortcut
      as it was. */
  lemma {:induction false} StripFirstNSpec(data: seq<Shortcut>, k: nat)
    requires UniqueIds(data) && k <= IconCount(data)
    ensures |StripFirstN(data, k)| == |data|
    ensures forall i :: 0 <= i < |data| ==>
      StripFirstN(data, k)[i] ==
        if HasCustomIcon(data[i]) && IconCount(data[..i]) < k then ClearIcon(data[i]) else data[i]
    decreases k
  {
    if k > 0 {
      var d1 := StripFirstIcon(data);
      var f := FirstBearer(data);
      StripFirstIconUnique(data);
      StripFirstIconShrinks(data);
      assert UniqueIds(d1);
      forall i | 0 <= i < |data| ensures IconCount(d1[..i]) == if i <= f then 0 else IconCount(data[..i]) - 1 {
        PrefixIcons(data, f, i);
      }
      PrefixIcons(data, f, |data|);
      assert d1[..|data|] == d1 && data[..|data|] == data;
      StripFirstNSpec(d1, k - 1);
    }
  }

  /** Icon counts of the prefixes before and after clearing the first
      icon-bearer `f`. */
  lemma PrefixIcons(data: seq<Shortcut>, f: nat, i: nat)
    requires IconCount(data) > 0 && f == FirstBearer(data) && i <= |data|
    ensures IconCount(data[f := ClearIcon(data[f])][..i]) == if i <= f then 0 else IconCount(data[..i]) - 1
    ensures i <= f ==> IconCount(data[..i]) == 0
  {
    var d1 := data[f := ClearIcon(data[f])];
    NoIconsBefore(data, f, i);
    if i <= f {
      assert d1[..i] == data[..i];
    } else {
      PrefixIconsAfter(data, d1, f, i);
    }
  }

  lemma PrefixIconsAfter(data: seq<Shortcut>, d1: seq<Shortcut>, f: nat, i: nat)
    requires f < i <= |data| && d1 == data[f := ClearIcon(data[f])]
    requires HasCustomIcon(data[f]) && IconCount(data[..f]) == 0
    ensures IconCount(d1[..i]) == IconCount(data[..i]) - 1
  {
    var a, b := data[..f], data[f + 1..i];
    assert data[..i] == a + [data[f]] + b;
    assert d1[..i] == a + [ClearIcon(data[f])] + b;
    SplitCount(a, data[f], b);
    SplitCount(a, ClearIcon(data[f]), b);
  }

  lemma SplitCount(a: seq<Shortcut>, x: Shortcut, b: seq<Shortcut>)
    ensures IconCount(a + [x] + b) == IconCount(a) + (if HasCustomIcon(x) then 1 else 0) + IconCount(b)
  {
    IconCountAppend(a + [x], b);
    IconCountAppend(a, [x]);
    assert [x][1..] == [];
  }

  lemma NoIconsBefore(data: seq<Shortcut>, f: nat, i: nat)
    requires f <= |data| && i <= |data|
    requires forall j :: 0 <= j < f ==> !HasCustomIcon(data[j])
    ensures IconCount(data[..f]) == 0
    ensures i <= f ==> IconCount(data[..i]) == 0
  {
    NoIconsIn(data[..f]);
    NoIconsIn(data[..i]);
  }

  lemma {:induction false} NoIconsIn(s: seq<Shortcut>)
    ensures (forall j :: 0 <= j < |s| ==> !HasCustomIcon(s[j])) ==> IconCount(s) == 0
  {
    if s != [] {
      NoIconsIn(s[1..]);
      assert forall j :: 1 <= j < |s| ==> s[1..][j - 1] == s[j];
    }
  }

  /** The shortcut store: `items` maps each key to the list last written
      under it; `attempt` is the browser's verdict on a write. */
  class ShortcutStorage {
    var items: map<string, seq<Shortcut>>
    const attempt: seq<Shortcut> -> WriteOutcome

    constructor (items: map<string, seq<Shortcut>>, attempt: seq<Shortcut> -> WriteOutcome)
      ensures this.items == items && this.attempt == attempt
    {
      this.items := items;
      this.attempt := attempt;
    }

    /** `saveToLocalStorage(key, data)`. */
    method SaveToLocalStorage(key: string, data: seq<Shortcut>) returns (ok: bool)
      modifies this
      ensures ok == SaveSpec(attempt, data).ok
      ensures ok <==> SaveSpec(attempt, data).stored.Some?
      ensures items == if ok then old(items)[key := SaveSpec(attempt, data).stored.value] else old(items)
      decreases IconCount(data)
    {
      SaveSpecBounds(attempt, data);
      match attempt(data) {
        case Written =>
          items := items[key := data];
          return true;
        case QuotaExceeded =>
          if IconCount(data) == 0 {
            // The user is told the quota is full.
            return false;
          }
          StripFirstIconShrinks(data);
          SaveSpecBounds(attempt, StripFirstIcon(data));
          ok := SaveToLocalStorage(key, StripFirstIcon(data));
        case WriteFailed =>
          return false;
      }
    }
  }
}
