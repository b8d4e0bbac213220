/** The community post form: its fields, the tag list, and the upload part derived from the image URI. */
module CommunityForm {
  import opened Outcomes

  /** The characters `String.prototype.trim` strips: white space and line terminators. */
  predicate IsJsWhitespace(c: char) {
    || c == '\t' || c == '\n' || c == '\U{000B}' || c == '\U{000C}' || c == '\r' || c == ' '
    || c == '\U{00A0}' || c == '\U{1680}' || ('\U{2000}' <= c <= '\U{200A}')
    || c == '\U{2028}' || c == '\U{2029}' || c == '\U{202F}' || c == '\U{205F}'
    || c == '\U{3000}' || c == '\U{FEFF}'
  }

  predicate AllWhitespace(s: string) {
    forall i :: 0 <= i < |s| ==> IsJsWhitespace(s[i])
  }

  /** Where `s` stops being white space, looking forward from `i`. */
  function TrimStart(s: string, i: nat): (j: nat)
    requires i <= |s|
    ensures i <= j <= |s|
    ensures forall k :: i <= k < j ==> IsJsWhitespace(s[k])
    ensures j < |s| ==> !IsJsWhitespace(s[j])
    decreases |s| - i
  {
    if i < |s| && IsJsWhitespace(s[i]) then TrimStart(s, i + 1) else i
  }

  /** Where `s` stops being white space, looking back from `j` but not past `lo`. */
  function TrimEnd(s: string, lo: nat, j: nat): (k: nat)
    requires lo <= j <= |s|
    ensures lo <= k <= j
    ensures forall m :: k <= m < j ==> IsJsWhitespace(s[m])
    ensures lo < k ==> !IsJsWhitespace(s[k - 1])
  {
    if lo < j && IsJsWhitespace(s[j - 1]) then TrimEnd(s, lo, j - 1) else j
  }

  /** `s.trim()`: what lies between the leading and the trailing white space. */
  function Trim(s: string): string {
    var a := TrimStart(s, 0);
    s[a..TrimEnd(s, a, |s|)]
  }

  /** `newTag.trim() !== ''` fails exactly for a tag made only of white space. */
  lemma {:induction false} TrimBlank(s: string)
    ensures Trim(s) == "" <==> AllWhitespace(s)
  {
    var a := TrimStart(s, 0);
    if a < |s| {
      assert TrimEnd(s, a, |s|) > a;
    }
  }

  /** The trimmed tag is the typed one less the white space at its ends, and bounded by non-white ones. */
  lemma {:induction false} TrimIsInfix(s: string)
    ensures var a := TrimStart(s, 0); var b := a + |Trim(s)|;
      && b <= |s| && Trim(s) == s[a..b]
      && (forall i :: 0 <= i < a ==> IsJsWhitespace(s[i]))
      && (forall i :: b <= i < |s| ==> IsJsWhitespace(s[i]))
  {
  }

  /** No white space is left at either end of the trimmed tag. */
  lemma {:induction false} TrimLeavesNoEdgeWhitespace(s: string)
    ensures Trim(s) == [] || (!IsJsWhitespace(Trim(s)[0]) && !IsJsWhitespace(Trim(s)[|Trim(s)| - 1]))
  {
    var a := TrimStart(s, 0);
    var b := TrimEnd(s, a, |s|);
    if a < b {
      assert Trim(s)[0] == s[a];
      assert Trim(s)[|Trim(s)| - 1] == s[b - 1];
    }
  }

  predicate NotSlash(c: char) { c != '/' }

  /** `\w`: an ASCII letter, digit or underscore. */
  predicate IsWordChar(c: char) {
    ('a' <= c <= 'z') || ('A' <= c <= 'Z') || ('0' <= c <= '9') || c == '_'
  }

  /** The longest suffix of `s` whose characters all satisfy `p`. */
  function TrailingRun(s: string, p: char -> bool): (r: string)
    ensures |r| <= |s| && r == s[|s| - |r|..]
    ensures forall i :: 0 <= i < |r| ==> p(r[i])
    ensures |r| < |s| ==> !p(s[|s| - |r| - 1])
  {
    if s != [] && p(s[|s| - 1]) then TrailingRun(s[..|s| - 1], p) + [s[|s| - 1]] else []
  }

  /** `uri.split('/').pop()`: what follows the last `/`, or all of `uri` when it has none. */
  function FileName(uri: string): (r: string)
    ensures |r| <= |uri| && r == uri[|uri| - |r|..]
    ensures forall i :: 0 <= i < |r| ==> r[i] != '/'
  {
    TrailingRun(uri, NotSlash)
  }

  /** The file name has no `/` in it and `uri` is a path prefix ending in `/` (or nothing) followed by it. */
  lemma FileNameIsLastSegment(uri: string)
    ensures var name := FileName(uri);
      && (forall i :: 0 <= i < |name| ==> name[i] != '/')
      && uri == uri[..|uri| - |name|] + name
      && (|name| < |uri| ==> uri[|uri| - |name| - 1] == '/')
  {
  }

  /** `match[1]` of `/\.(\w+)$/.exec(filename)`: the word characters after a final dot. */
  function Extension(filename: string): (r: Option<string>)
    ensures r.Some? ==> r.value != [] && |r.value| < |filename| && r.value == filename[|filename| - |r.value|..]
    ensures r.Some? ==> filename[|filename| - |r.value| - 1] == '.'
  {
    var w := TrailingRun(filename, IsWordChar);
    if w != [] && |w| < |filename| && filename[|filename| - |w| - 1] == '.' then Some(w) else None
  }

  /** The upload's MIME type: `image/<ext>` when the expression matches, and `image` otherwise. */
  function MimeType(filename: string): (r: string)
    ensures Extension(filename).None? ==> r == "image"
    ensures Extension(filename).Some? ==> |r| > 6 && r[..6] == "image/" && r[6..] == Extension(filename).value
  {
    match Extension(filename)
    case Some(ext) => "image/" + ext
    case None => "image"
  }

  predicate AllWordChars(s: string) {
    forall i :: 0 <= i < |s| ==> IsWordChar(s[i])
  }

  /** Whatever precedes the dot, a name ending in `.` and word characters yields that extension. */
  lemma ExtensionComplete(prefix: string, ext: string)
    requires ext != [] && AllWordChars(ext)
    ensures Extension(prefix + "." + ext) == Some(ext)
    ensures MimeType(prefix + "." + ext) == "image/" + ext
  {
    var f := prefix + "." + ext;
    var w := TrailingRun(f, IsWordChar);
    assert f[|f| - |ext|..] == ext;
    assert f[|f| - |ext| - 1] == '.';
    assert w == ext;
  }

  /** An extension is only ever found after a dot, and it is made of word characters. */
  lemma ExtensionSound(filename: string)
    ensures Extension(filename).Some? ==>
      var ext := Extension(filename).value;
      && ext != [] && AllWordChars(ext)
      && filename == filename[..|filename| - |ext| - 1] + "." + ext
  {
  }

  /** The file part appended to the form data. */
  datatype FilePart = FilePart(uri: string, name: string, mimeType: string)

  function UploadPart(imageUri: string): (r: FilePart)
    ensures r.uri == imageUri && |r.name| <= |imageUri| && r.name == imageUri[|imageUri| - |r.name|..]
    ensures forall i :: 0 <= i < |r.name| ==> r.name[i] != '/'
    ensures r.mimeType == MimeType(r.name)
  {
    var filename := FileName(imageUri);
    FilePart(imageUri, filename, MimeType(filename))
  }

  datatype Mode = Create | Edit
  datatype Field = Title | Category | Content

  /** The post being edited (`CommunityData`). */
  datatype CommunityData = CommunityData(id: int, title: string, category: string, content: string, tags: Option<seq<string>>)

  /** What `handleSubmit` posts; `tags` is sent as its JSON text. */
  datatype Submission = Submission(title: string, category: string, content: string, tags: seq<string>, file: Option<FilePart>)

  /** `tags.filter((_, i) => i !== index)` */
  function DropIndex(tags: seq<string>, index: int): (r: seq<string>)
    ensures 0 <= index < |tags| ==> r == tags[..index] + tags[index + 1..]
    ensures !(0 <= index < |tags|) ==> r == tags
  {
    if tags == [] then []
    else (if index == 0 then [] else [tags[0]]) + DropIndex(tags[1..], index - 1)
  }

  class PostForm {
    const mode: Mode
    var title: string
    var category: string
    var content: string
    var tags: seq<string>
    var newTag: string
    var imageUri: Option<string>

    /**
     * The form as first shown: blank fields and the given post's tags, then, in edit mode with
     * a post, the effect that copies the post's fields and tags in.
     */
    constructor (mode: Mode, communityData: Option<CommunityData>)
      ensures this.mode == mode && newTag == "" && imageUri == None
      ensures if mode == Edit && communityData.Some?
              then title == communityData.value.title && category == communityData.value.category
                && content == communityData.value.content
              else title == "" && category == "" && content == ""
      ensures tags == if communityData.Some? then communityData.value.tags.GetOr([]) else []
    {
      this.mode := mode;
      title, category, content := "", "", "";
      tags := if communityData.Some? then communityData.value.tags.GetOr([]) else [];
      newTag, imageUri := "", None;
      if mode == Edit && communityData.Some? {
        var data := communityData.value;
        title, category, content := data.title, data.category, data.content;
        tags := data.tags.GetOr([]);
      }
    }

    /** `{...prev, [field]: value}`: one field changes. */
    method HandleChange(field: Field, value: string)
      modifies this
      ensures title == (if field == Title then value else old(title))
      ensures category == (if field == Category then value else old(category))
      ensures content == (if field == Content then value else old(content))
      ensures tags == old(tags) && newTag == old(newTag) && imageUri == old(imageUri)
    {
      match field {
        case Title => title := value;
        case Category => category := value;
        case Content => content := value;
      }
    }

    /** The tag input's `onChangeText`. */
    method SetNewTag(value: string)
      modifies this
      ensures newTag == value
      ensures title == old(title) && category == old(category) && content == old(content)
      ensures tags == old(tags) && imageUri == old(imageUri)
    {
      newTag := value;
    }

    /** A non-blank tag is appended trimmed and the input is cleared; a blank one changes nothing. */
    method HandleTagAdd()
      modifies this
      ensures if AllWhitespace(old(newTag))
              then tags == old(tags) && newTag == old(newTag)
              else tags == old(tags) + [Trim(old(newTag))] && newTag == ""
      ensures title == old(title) && category == old(category) && content == old(content)
      ensures imageUri == old(imageUri)
    {
      TrimBlank(newTag);
      if Trim(newTag) != "" {
        tags := tags + [Trim(newTag)];
        newTag := "";
      }
    }

    /** The tag at `index` is dropped; an index outside the list changes nothing. */
    method HandleTagRemove(index: int)
      modifies this
      ensures tags == DropIndex(old(tags), index)
      ensures title == old(title) && category == old(category) && content == old(content)
      ensures newTag == old(newTag) && imageUri == old(imageUri)
    {
      tags := DropIndex(tags, index);
    }

    /** The picker returned an image (permission prompts and cancellation are not modelled). */
    method SetImageUri(uri: string)
      modifies this
      ensures imageUri == Some(uri)
      ensures title == old(title) && category == old(category) && content == old(content)
      ensures tags == old(tags) && newTag == old(newTag)
    {
      imageUri := Some(uri);
    }

    /** The multipart body `handleSubmit` builds; a file part is added only for a non-empty URI. */
    function Submit(): (s: Submission)
      reads this
      ensures s.tags == tags
      ensures s.file.Some? <==> imageUri.Some? && imageUri.value != ""
      ensures s.file.Some? ==>
        s.file.value.name == FileName(imageUri.value) && s.file.value.mimeType == MimeType(s.file.value.name)
    {
      var file := if imageUri.Some? && imageUri.value != "" then Some(UploadPart(imageUri.value)) else None;
      Submission(title, category, content, tags, file)
    }
  }
}
