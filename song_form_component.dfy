/** frontend-react/src/components/SongForm.js: the "Add New Song" form, its four text inputs, the
    cover preview, and what a submit hands to the page. */
module SongFormComponent {
  import opened Js
  import opened SongsComponent
  import opened FormField

  /** `formData`: the text of the four inputs. */
  datatype FormData = FormData(title: string, author: string, length: string, cover: string)
  {
    function Get(field: Field): string {
      match field
      case Title => title
      case Author => author
      case Length => length
      case Cover => cover
    }

    /** `{ ...prev, [name]: value }`: the named input takes the value, the others keep theirs. */
    function With(field: Field, value: string): (r: FormData)
      ensures r.Get(field) == value
      ensures forall other :: other != field ==> r.Get(other) == Get(other)
    {
      match field
      case Title => this.(title := value)
      case Author => this.(author := value)
      case Length => this.(length := value)
      case Cover => this.(cover := value)
    }
  }

  const EmptyForm: FormData := FormData("", "", "", "")

  /** The song a submit passes to `onAddSong`. */
  datatype NewSong = NewSong(title: string, author: string, length: int, cover: string)

  // ----- isValidImageUrl -----

  const ImageExtensions: seq<string> := ["jpg", "jpeg", "png", "gif", "bmp", "webp"]

  /** The characters `.` does not match in a regular expression without the `s` flag. */
  predicate IsLineTerminator(c: char) {
    c == '\n' || c == '\r' || c == '\U{2028}' || c == '\U{2029}'
  }

  predicate NoLineTerminator(s: string) {
    forall i :: 0 <= i < |s| ==> !IsLineTerminator(s[i])
  }

  /** The length of the `https?://` that starts `u` (already lower-cased), 0 when there is none. */
  function SchemeLength(u: string): (k: nat)
    ensures k == 0 || k == 7 || k == 8
    ensures k == 8 <==> |u| >= 8 && u[..8] == "https://"
    ensures k == 7 <==> |u| >= 7 && u[..7] == "http://"
  {
    if |u| >= 8 && u[..8] == "https://" then
      assert u[..7][4] == 's';
      8
    else if |u| >= 7 && u[..7] == "http://" then 7
    else 0
  }

  /** `u` ends in a dot and one of the image extensions, after its first `k` characters. */
  predicate EndsWithExtension(u: string, k: nat) {
    exists e :: e in ImageExtensions && HasExtensionAt(u, k, e)
  }

  predicate HasExtensionAt(u: string, k: nat, e: string) {
    |u| >= k + 1 + |e| && u[|u| - |e| - 1..] == "." + e
  }

  /** `/^(https?:\/\/).*\.(jpe?g|png|gif|bmp|webp)$/i.test(url)`. The `i` flag folds exactly the
      ASCII letters, as the pattern holds only those, so the test runs on the lower-cased URL,
      and it accepts exactly the URLs whose lower-cased form the pattern's groups can split. */
  function IsValidImageUrl(url: string): (valid: bool)
    ensures valid <==> PatternMatches(Lower(url))
  {
    AnchoredMatchIsPattern(Lower(url));
    AnchoredMatch(Lower(url))
  }

  /** The pattern read off its anchors: the scheme at the start, an image extension at the very
      end, and no line terminator in between. */
  predicate AnchoredMatch(u: string) {
    var k := SchemeLength(u);
    k != 0 && NoLineTerminator(u[k..]) && EndsWithExtension(u, k)
  }

  /** One way of splitting a lower-cased URL along the pattern's groups: the scheme, what `.*`
      takes, and the extension after the dot. */
  predicate Decomposes(u: string, scheme: string, middle: string, ext: string) {
    u == scheme + (middle + ("." + ext))
  }

  /** The regular expression read as its definition: some split of the URL matches each group. */
  ghost predicate PatternMatches(u: string) {
    exists scheme, middle, ext ::
      Decomposes(u, scheme, middle, ext)
      && (scheme == "http://" || scheme == "https://")
      && NoLineTerminator(middle)
      && ext in ImageExtensions
  }

  lemma ExtensionsHaveNoLineTerminator(e: string)
    requires e in ImageExtensions
    ensures NoLineTerminator("." + e)
  {
  }

  lemma {:induction false} AnchoredImpliesPattern(u: string)
    requires AnchoredMatch(u)
    ensures PatternMatches(u)
  {
    var k := SchemeLength(u);
    var e :| e in ImageExtensions && HasExtensionAt(u, k, e);
    var middle := u[k..|u| - |e| - 1];
    MiddleHasNoLineTerminator(u[k..], |middle|);
    assert u[k..][..|middle|] == middle by {
      assert |middle| <= |u[k..]|;
      forall i | 0 <= i < |middle| ensures u[k..][..|middle|][i] == middle[i] {
        assert u[k..][..|middle|][i] == u[k + i];
      }
    }
    JoinAt(u, k, e);
    assert Decomposes(u, u[..k], middle, e);
  }

  lemma JoinAt(u: string, k: nat, e: string)
    requires HasExtensionAt(u, k, e)
    ensures u == u[..k] + (u[k..|u| - |e| - 1] + ("." + e))
  {
    assert u == u[..k] + (u[k..|u| - |e| - 1] + u[|u| - |e| - 1..]);
  }

  lemma MiddleHasNoLineTerminator(s: string, n: nat)
    requires n <= |s| && NoLineTerminator(s)
    ensures NoLineTerminator(s[..n])
  {
    forall i | 0 <= i < n ensures !IsLineTerminator(s[..n][i]) {
      assert s[..n][i] == s[i];
    }
  }

  lemma {:induction false} PatternImpliesAnchored(u: string)
    requires PatternMatches(u)
    ensures AnchoredMatch(u)
  {
    var scheme, middle, ext :| Decomposes(u, scheme, middle, ext)
      && (scheme == "http://" || scheme == "https://") && NoLineTerminator(middle) && ext in ImageExtensions;
    SplitMatches(u, scheme, middle, ext);
  }

  lemma {:induction false} SplitMatches(u: string, scheme: string, middle: string, ext: string)
    requires u == scheme + (middle + ("." + ext))
    requires scheme == "http://" || scheme == "https://"
    requires NoLineTerminator(middle) && ext in ImageExtensions
    ensures AnchoredMatch(u)
  {
    var k := |scheme|;
    var tail := "." + ext;
    assert u[..k] == scheme;
    SchemeOf(u, scheme);
    assert u[k..] == middle + tail;
    ExtensionsHaveNoLineTerminator(ext);
    NoLineTerminatorConcat(middle, tail);
    assert u[|u| - |ext| - 1..] == tail;
    assert HasExtensionAt(u, k, ext);
    assert EndsWithExtension(u, k);
  }

  lemma NoLineTerminatorConcat(a: string, b: string)
    requires NoLineTerminator(a) && NoLineTerminator(b)
    ensures NoLineTerminator(a + b)
  {
    forall i | 0 <= i < |a + b| ensures !IsLineTerminator((a + b)[i]) {
      if i >= |a| {
        assert (a + b)[i] == b[i - |a|];
      }
    }
  }

  lemma SchemeOf(u: string, scheme: string)
    requires scheme == "http://" || scheme == "https://"
    requires |u| >= |scheme| && u[..|scheme|] == scheme
    ensures SchemeLength(u) == |scheme|
  {
    if scheme == "http://" && |u| >= 8 {
      assert u[..8][4] == u[..7][4] == ':';
    }
  }

  /** The anchored reading agrees with the pattern's definition on every string. */
  lemma AnchoredMatchIsPattern(u: string)
    ensures AnchoredMatch(u) <==> PatternMatches(u)
  {
    if AnchoredMatch(u) {
      AnchoredImpliesPattern(u);
    }
    if PatternMatches(u) {
      PatternImpliesAnchored(u);
    }
  }

  /** A few cases the pattern decides. */
  lemma ImageUrlExamples()
    ensures AnchoredMatch("https://x.jpeg")
    ensures !AnchoredMatch("ftp://x.png")
    ensures !AnchoredMatch("http://x.png?s=2")
  {
    var u := "https://x.jpeg";
    assert u[..8] == "https://";
    assert HasExtensionAt(u, 8, "jpeg");
    var w := "ftp://x.png";
    assert w[..7] != "http://" by { assert w[0] == 'f'; }
    assert w[..8] != "https://" by { assert w[0] == 'f'; }
    var v := "http://x.png?s=2";
    forall e | e in ImageExtensions ensures !HasExtensionAt(v, 7, e) {
      assert v[|v| - 1] == '2';
    }
  }

  /** Upper-case letters in a URL do not change the verdict. */
  lemma ValidityIgnoresCase(url: string)
    ensures IsValidImageUrl(url) <==> IsValidImageUrl(Lower(url))
  {
    LowerIdempotent(url);
  }

  /** `length: Number(formData.length) || 0`: `NaN` and 0 both become 0. */
  function SubmittedLength(text: string): (n: int)
    ensures Blank(text) ==> n == 0
    ensures ToNumber(text).None? ==> n == 0
    ensures ToNumber(text).Some? ==> n == ToNumber(text).value
  {
    match ToNumber(text)
    case None => 0
    case Some(v) => v
  }

  /** The preview the form shows for a cover text: the URL itself when it is a valid image URL. */
  function PreviewOf(cover: string): (preview: string)
    ensures preview != "" ==> preview == cover && IsValidImageUrl(cover)
    ensures IsValidImageUrl(cover) ==> preview == cover
  {
    if IsValidImageUrl(cover) then cover else ""
  }

  /** What a submit of the form passes to `onAddSong`: nothing when the title or the author is
      blank after `trim()`; otherwise the title and author as typed, the numeric length, and the
      cover text. */
  function Submission(form: FormData): (r: Option<NewSong>)
    ensures r.None? <==> Blank(form.title) || Blank(form.author)
    ensures r.Some? ==> r.value == NewSong(form.title, form.author, SubmittedLength(form.length), form.cover)
  {
    TrimEmptyIffBlank(form.title);
    TrimEmptyIffBlank(form.author);
    if Trim(form.title) == "" || Trim(form.author) == "" then None
    else Some(NewSong(form.title, form.author, SubmittedLength(form.length), form.cover))
  }

  /** An empty cover input shows no preview. */
  lemma EmptyCoverHasNoPreview()
    ensures PreviewOf("") == ""
  {
    assert Lower("") == "";
  }

  class SongForm {
    var formData: FormData
    var coverPreview: string

    /** The preview always follows the cover input as it now is. */
    predicate Valid()
      reads this
    {
      coverPreview == PreviewOf(formData.cover)
    }

    constructor ()
      ensures formData == EmptyForm && coverPreview == ""
      ensures Valid()
    {
      formData := EmptyForm;
      coverPreview := "";
    }

    /** `handleChange`: the named input takes the value; a cover edit resets the preview. */
    method HandleChange(field: Field, value: string)
      requires Valid()
      modifies this
      ensures Valid()
      ensures formData == old(formData).With(field, value)
      ensures field != Cover ==> coverPreview == old(coverPreview)
      ensures field == Cover ==> coverPreview == (if IsValidImageUrl(value) then value else "")
    {
      formData := formData.With(field, value);
      if field == Cover {
        if IsValidImageUrl(value) {
          coverPreview := value;
        } else {
          coverPreview := "";
        }
      }
    }

    /** `handleSubmit`: hands `Submission(formData)` to `onAddSong` (`call`), and clears the form
        when it did. */
    method HandleSubmit() returns (call: Option<NewSong>)
      requires Valid()
      modifies this
      ensures Valid()
      ensures call == Submission(old(formData))
      ensures call.None? ==> formData == old(formData) && coverPreview == old(coverPreview)
      ensures call.Some? ==> formData == EmptyForm && coverPreview == ""
    {
      call := Submission(formData);
      if call.Some? {
        EmptyCoverHasNoPreview();
        formData := EmptyForm;
        coverPreview := "";
      }
    }
  }
}
