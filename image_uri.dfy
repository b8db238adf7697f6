/**
 * `buildImageUri` of components/home/RestaurantCardLight.tsx: a stored image
 * value is either a full web URL, used as it is once trimmed, or an Appwrite
 * file id, turned into the storage `/view` URL. Blank values and ids the SDK
 * rejects fall back to a placeholder picture. The SDK's `getFileView` for
 * the configured bucket is the parameter `fileView`; `None` is a throw.
 */
module ImageUri {
  import opened JsStrings
  import opened JsValues

  const Placeholder: string := "https://picsum.photos/320/240"

  /** `/^https?:\/\//i`: an `http://` or `https://` scheme, in any letter case. */
  predicate IsWebUrl(v: string) {
    var l := ToLower(v);
    StartsWith(l, "http://") || StartsWith(l, "https://")
  }

  /** `buildImageUri(val)`. */
  function BuildImageUri(val: Option<string>, fileView: string -> Option<string>): (uri: string)
    ensures val.None? ==> uri == Placeholder
    ensures val.Some? && Trim(val.value) != "" && IsWebUrl(Trim(val.value)) ==> uri == Trim(val.value)
    ensures val.Some? && Trim(val.value) != "" && !IsWebUrl(Trim(val.value)) ==>
              uri == (if fileView(Trim(val.value)).Some? then fileView(Trim(val.value)).value else Placeholder)
    ensures uri == Placeholder ||
            (val.Some? && uri == Trim(val.value) && IsWebUrl(uri)) ||
            (val.Some? && !IsWebUrl(Trim(val.value)) && fileView(Trim(val.value)) == Some(uri))
  {
    if val.None? || Trim(val.value) == "" then Placeholder
    else
      var v := Trim(val.value);
      if IsWebUrl(v) then v
      else match fileView(v)
        case Some(u) => u
        case None => Placeholder
  }

  // ---------------------------------------------------------------------------
  // Properties
  // ---------------------------------------------------------------------------

  /** A scheme check through the lower-cased text: `v` starts with `p` once lower-cased. */
  lemma LowerStartsWith(v: string, p: string)
    requires |p| <= |v| && forall k :: 0 <= k < |p| ==> LowerChar(v[k]) == p[k]
    ensures StartsWith(ToLower(v), p)
  {
    assert ToLower(v)[..|p|] == p;
  }

  /** A whitespace-only value is treated like a missing one. */
  lemma BlankGivesPlaceholder(s: string, fileView: string -> Option<string>)
    requires AllSpace(s)
    ensures BuildImageUri(Some(s), fileView) == Placeholder
  {
    TrimShape(s);
  }

  /** The scheme test ignores letter case: `HTTP://`, `Http://` and `http://` all pass. */
  lemma SchemeAnyCase(v: string)
    requires |v| >= 7 && ToLower(v[..7]) == "http://"
    ensures IsWebUrl(v)
  {
    forall k | 0 <= k < 7
      ensures LowerChar(v[k]) == "http://"[k]
    {
      assert ToLower(v[..7])[k] == LowerChar(v[..7][k]);
    }
    LowerStartsWith(v, "http://");
  }

  /**
   * A web URL that ends in a visible character is returned exactly as given;
   * the SDK is not consulted.
   */
  lemma WebUrlKept(v: string, fileView: string -> Option<string>)
    requires IsWebUrl(v) && !IsSpace(v[|v| - 1])
    ensures BuildImageUri(Some(v), fileView) == v
  {
    assert !IsSpace(v[0]) by {
      assert ToLower(v)[0] == 'h';
    }
    TrimStartFixed(v);
    TrimEndFixed(v);
  }

  /** Any `https://` URL ending in a visible character is kept as it is. */
  lemma SecureUrlKept(p: string, fileView: string -> Option<string>)
    requires |p| >= 8 && p[..8] == "https://" && !IsSpace(p[|p| - 1])
    ensures BuildImageUri(Some(p), fileView) == p
  {
    forall k | 0 <= k < 8
      ensures LowerChar(p[k]) == "https://"[k]
    {
      assert p[k] == p[..8][k];
    }
    LowerStartsWith(p, "https://");
    WebUrlKept(p, fileView);
  }

  /** The placeholder is itself a web URL, so building from it returns it unchanged. */
  lemma PlaceholderStable(fileView: string -> Option<string>)
    ensures BuildImageUri(Some(Placeholder), fileView) == Placeholder
  {
    SecureUrlKept(Placeholder, fileView);
  }

  /** `getFileView` yields trimmed web URLs. */
  ghost predicate ViewsAreWebUrls(fileView: string -> Option<string>) {
    forall id :: fileView(id).Some? ==> IsWebUrl(fileView(id).value) && Trim(fileView(id).value) == fileView(id).value
  }

  /** Building from a built URI changes nothing: every result is a trimmed web URL. */
  lemma BuildIdempotent(val: Option<string>, fileView: string -> Option<string>)
    requires ViewsAreWebUrls(fileView)
    ensures var uri := BuildImageUri(val, fileView);
            BuildImageUri(Some(uri), fileView) == uri
  {
    var uri := BuildImageUri(val, fileView);
    if uri == Placeholder {
      PlaceholderStable(fileView);
    } else {
      var v := Trim(val.value);
      if IsWebUrl(v) {
        TrimIdempotent(val.value);
        assert uri == v;
      } else {
        assert fileView(v) == Some(uri);
      }
      assert IsWebUrl(uri) && Trim(uri) == uri;
      assert Trim(uri) != "" by {
        assert |ToLower(uri)| == |uri|;
      }
    }
  }
}
