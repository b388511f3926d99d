/**
 * The add/edit shortcut dialog: it seeds its fields when opened, and on
 * submit refuses blank fields and makes sure the address has an `http`
 * or `https` scheme.
 */
module ShortcutModal {
  import opened Wrappers
  import opened JsText
  import opened Shortcuts
  import opened IconUpload

  const HttpsScheme: string := "https://"

  /** The address handed on by submit: trimmed, with `https://` put in
      front unless it already starts with `http://` or `https://` in any
      letter case. */
  function CoerceUrl(url: string): string {
    var t := Trim(url);
    if HasHttpScheme(t) then t else HttpsScheme + t
  }

  /** The coerced address always has a scheme and no surrounding white
      space; an address that already had a scheme is only trimmed, any
      other gets exactly one `https://` prefix; and coercing twice is
      coercing once. */
  lemma CoerceUrlSpec(url: string)
    ensures HasHttpScheme(CoerceUrl(url))
    ensures IsTrimmed(CoerceUrl(url))
    ensures HasHttpScheme(Trim(url)) ==> CoerceUrl(url) == Trim(url)
    ensures !HasHttpScheme(Trim(url)) ==> CoerceUrl(url) == HttpsScheme + Trim(url)
    ensures CoerceUrl(CoerceUrl(url)) == CoerceUrl(url)
  {
    var t := Trim(url);
    TrimShape(url);
    if !HasHttpScheme(t) {
      PrefixedIsCoerced(t);
    }
    TrimFixesTrimmed(CoerceUrl(url));
  }

  /** Putting `https://` in front of a trimmed string gives a trimmed
      string with a scheme. */
  lemma PrefixedIsCoerced(t: string)
    requires IsTrimmed(t)
    ensures HasHttpScheme(HttpsScheme + t) && IsTrimmed(HttpsScheme + t)
  {
    var r := HttpsScheme + t;
    assert forall i :: 0 <= i < |HttpsScheme| ==> r[i] == HttpsScheme[i];
    assert StartsWithIgnoringCase(r, HttpsScheme);
    assert r[|r| - 1] == if t == [] then '/' else t[|t| - 1];
  }

  /** What submit passes to the page's save handler. */
  datatype SaveRequest = SaveRequest(title: string, url: string, customIcon: Option<string>)

  /** `handleSubmit` over the dialog's fields and the uploaded icon. */
  function Submit(title: string, url: string, icon: string): Option<SaveRequest> {
    if IsBlank(title) || IsBlank(url) then None
    else Some(SaveRequest(title, CoerceUrl(url), if icon == "" then None else Some(icon)))
  }

  /** Submit does nothing exactly when a field is blank; otherwise the title
      goes through untrimmed, the address coerced, and an empty icon as
      absent. */
  lemma SubmitSpec(title: string, url: string, icon: string)
    ensures Submit(title, url, icon).None? <==> IsBlank(title) || IsBlank(url)
    ensures Submit(title, url, icon).Some? ==>
      var req := Submit(title, url, icon).value;
      && req.title == title
      && HasHttpScheme(req.url) && req.url == CoerceUrl(url)
      && (req.customIcon.None? <==> icon == "")
      && (req.customIcon.Some? ==> req.customIcon.value == icon)
  {
    CoerceUrlSpec(url);
  }

  /** The dialog's own fields and its upload hook. */
  class ShortcutEditor {
    var title: string
    var url: string
    const upload: IconUploadState

    ghost predicate Valid()
      reads this, upload
    {
      upload.Valid()
    }

    constructor ()
      ensures Valid() && fresh(upload)
      ensures title == "" && url == "" && upload.icon == "" && upload.error == ""
    {
      title, url := "", "";
      upload := new IconUploadState();
    }

    /** The effect run when `isOpen` or `initialData` changes: opening with
        a shortcut seeds title and address and, only when it has one, the
        icon; every other change clears the fields and the icon. */
    method Sync(isOpen: bool, initialData: Option<Shortcut>)
      requires Valid()
      modifies this, upload
      ensures Valid()
      ensures isOpen && initialData.Some? ==>
        && title == initialData.value.title && url == initialData.value.url
        && (HasCustomIcon(initialData.value) ==>
              upload.icon == initialData.value.customIcon.value && upload.error == "")
        && (!HasCustomIcon(initialData.value) ==>
              upload.icon == old(upload.icon) && upload.error == old(upload.error))
      ensures !(isOpen && initialData.Some?) ==>
        title == "" && url == "" && upload.icon == "" && upload.error == ""
    {
      if isOpen && initialData.Some? {
        var d := initialData.value;
        title := d.title;
        url := d.url;
        if HasCustomIcon(d) {
          upload.SetInitialIcon(d.customIcon.value);
        }
      } else {
        title := "";
        url := "";
        upload.RemoveIcon();
      }
    }

    /** `handleSubmit`: the request passed to the save handler, if any. */
    method HandleSubmit() returns (req: Option<SaveRequest>)
      ensures req == Submit(title, url, upload.icon)
      ensures req.Some? ==> HasHttpScheme(req.value.url)
    {
      if IsBlank(title) || IsBlank(url) {
        return None;
      }
      var finalUrl := Trim(url);
      if !HasHttpScheme(finalUrl) {
        finalUrl := HttpsScheme + finalUrl;
      }
      CoerceUrlSpec(url);
      req := Some(SaveRequest(title, finalUrl, if upload.icon == "" then None else Some(upload.icon)));
    }
  }
}
