/** The two pieces of plain logic in the vision wrapper of `backend/`: the
    MIME type of an uploaded image, taken from its file extension, and the
    reading of the model's reply, which keeps the text from the first '{' to
    the last '}' and falls back to a fixed "unknown" analysis when there is
    no such span or it does not parse. `JSON.parse` is a parameter. */
module AiService {
  import opened Common

  // ------------------------------------------------------------- strings

  /** The first position of `c` in `s`. */
  function IndexOf(s: string, c: char): (r: Option<nat>)
    ensures r.Some? ==> r.value < |s| && s[r.value] == c && forall k :: 0 <= k < r.value ==> s[k] != c
    ensures r.None? <==> forall k :: 0 <= k < |s| ==> s[k] != c
  {
    if s == [] then None
    else if s[0] == c then Some(0)
    else match IndexOf(s[1..], c)
      case None => None
      case Some(i) => Some(i + 1)
  }

  /** The last position of `c` in `s`. */
  function LastIndexOf(s: string, c: char): (r: Option<nat>)
    ensures r.Some? ==> r.value < |s| && s[r.value] == c && forall k :: r.value < k < |s| ==> s[k] != c
    ensures r.None? <==> forall k :: 0 <= k < |s| ==> s[k] != c
  {
    if s == [] then None
    else if s[|s| - 1] == c then Some(|s| - 1)
    else LastIndexOf(s[..|s| - 1], c)
  }

  /** `path.split('.').pop()`: the text after the last '.', or the whole path
      when it has none. */
  function Extension(path: string): (r: string)
    ensures '.' !in r && |r| <= |path| && r == path[|path| - |r|..]
    ensures '.' !in path ==> r == path
    ensures '.' in path ==> path[|path| - |r| - 1] == '.'
  {
    match LastIndexOf(path, '.')
      case None => path
      case Some(i) => path[i + 1..]
  }

  function LowerChar(c: char): char
  {
    if 'A' <= c <= 'Z' then (c as int + 32) as char else c
  }

  /** `toLowerCase()` on ASCII letters. */
  function ToLower(s: string): (r: string)
    ensures |r| == |s|
    ensures forall i :: 0 <= i < |r| ==> !('A' <= r[i] <= 'Z')
    ensures forall i :: 0 <= i < |s| && !('A' <= s[i] <= 'Z') ==> r[i] == s[i]
    ensures forall i :: 0 <= i < |s| && 'A' <= s[i] <= 'Z' ==> 'a' <= r[i] <= 'z'
  {
    seq(|s|, i requires 0 <= i < |s| => LowerChar(s[i]))
  }

  // ---------------------------------------------------------- MIME types

  /** The four types the table can give. */
  predicate IsImageType(mime: string)
  {
    mime == "image/jpeg" || mime == "image/png" || mime == "image/gif" || mime == "image/webp"
  }

  /** The extension table of `getMimeType`, read at its own keys. */
  function MimeTypes(ext: string): (r: Option<string>)
    ensures r.Some? ==> IsImageType(r.value)
  {
    if ext == "jpg" || ext == "jpeg" then Some("image/jpeg")
    else if ext == "png" then Some("image/png")
    else if ext == "gif" then Some("image/gif")
    else if ext == "webp" then Some("image/webp")
    else None
  }

  /** `mimeTypes[ext] || 'image/jpeg'` for the lower-cased extension, reading
      only the table's own keys. */
  function GetMimeType(path: string): (r: string)
    ensures IsImageType(r)
    ensures MimeTypes(ToLower(Extension(path))).Some? ==> r == MimeTypes(ToLower(Extension(path))).value
    ensures MimeTypes(ToLower(Extension(path))).None? ==> r == "image/jpeg"
  {
    OrStr(MimeTypes(ToLower(Extension(path))), "image/jpeg")
  }

  /** The extension of `name.ext` is `ext` when `ext` has no dot. */
  lemma ExtensionOf(name: string, ext: string)
    requires '.' !in ext
    ensures Extension(name + "." + ext) == ext
  {
    var path := name + "." + ext;
    assert path[|name|] == '.';
    assert forall k :: |name| < k < |path| ==> path[k] == ext[k - |name| - 1];
    assert path[|name| + 1..] == ext;
  }

  /** The text after the last dot decides the type, in any letter case. */
  lemma MimeTypeOfName(name: string, ext: string)
    requires '.' !in ext
    ensures GetMimeType(name + "." + ext) == OrStr(MimeTypes(ToLower(ext)), "image/jpeg")
  {
    ExtensionOf(name, ext);
  }

  /** Text without capitals is its own lower case. */
  lemma LowerIdentity(s: string)
    requires forall i :: 0 <= i < |s| ==> !('A' <= s[i] <= 'Z')
    ensures ToLower(s) == s
  {
  }

  /** The case of the extension's letters does not matter. */
  lemma CaseInsensitive(name: string, ext: string)
    requires '.' !in ext
    ensures GetMimeType(name + "." + ext) == GetMimeType(name + "." + ToLower(ext))
  {
    var lower := ToLower(ext);
    assert '.' !in lower by {
      forall i | 0 <= i < |lower| ensures lower[i] != '.' {
        assert ext[i] != '.';
      }
    }
    LowerIdentity(lower);
    MimeTypeOfName(name, ext);
    MimeTypeOfName(name, lower);
  }

  lemma KeysHaveNoSlash(ext: string)
    requires MimeTypes(ext).Some?
    ensures '/' !in ext
  {
  }

  /** No extension of the table holds a '/', so a path whose text after the
      last '.' does (a directory with a dot, or no dot and a directory) is
      a JPEG. */
  lemma SlashAfterLastDotIsJpeg(path: string)
    requires '/' in Extension(path)
    ensures GetMimeType(path) == "image/jpeg"
  {
    var ext := ToLower(Extension(path));
    assert '/' in ext;
    if MimeTypes(ext).Some? {
      KeysHaveNoSlash(ext);
    }
  }

  /** What `mimeTypes[ext]` yields in JavaScript: an own key's string, the
      value of a key every object literal inherits, or `undefined`. */
  datatype JsLookup = Own(mime: string) | Inherited(key: string) | Undefined

  /** The lower-case keys of `Object.prototype`: `constructor` (a function)
      and `__proto__` (an object). Both values are truthy. */
  const InheritedKeys: set<string> := {"constructor", "__proto__"}

  /** `mimeTypes[ext] || 'image/jpeg'` as the code evaluates it: an inherited
      key's value is truthy and is returned in place of a MIME string. */
  function GetMimeTypeAsWritten(path: string): (r: JsLookup)
    ensures r.Own? || r.Inherited?
    ensures r.Inherited? <==> ToLower(Extension(path)) in InheritedKeys
  {
    var ext := ToLower(Extension(path));
    if MimeTypes(ext).Some? then Own(MimeTypes(ext).value)
    else if ext in InheritedKeys then Inherited(ext)
    else Own("image/jpeg")
  }

  /** An image named `meal.constructor` gets the `Object` function as its
      MIME type. */
  lemma MimeTypeAsWrittenNotAString(name: string)
    ensures GetMimeTypeAsWritten(name + ".constructor") == Inherited("constructor")
  {
    var ext := "constructor";
    ConstructorKey();
    ExtensionOf(name, ext);
    assert name + ".constructor" == name + "." + ext;
  }

  /** `constructor` is a dot-free, lower-case, inherited key outside the table. */
  lemma ConstructorKey()
    ensures '.' !in "constructor"
    ensures ToLower("constructor") == "constructor"
    ensures MimeTypes("constructor").None? && "constructor" in InheritedKeys
  {
    var ext := "constructor";
    LowerIdentity(ext);
  }

  /** Away from the two inherited keys the code and the own-key reading agree. */
  lemma MimeTypeAsWrittenAgrees(path: string)
    requires ToLower(Extension(path)) !in InheritedKeys
    ensures GetMimeTypeAsWritten(path) == Own(GetMimeType(path))
  {
  }

  // ------------------------------------------------------------ analysis

  /** Where `/\{[\s\S]*\}/` matches: the first '{' to the last '}', when that
      '}' comes after the '{'. The match is greedy and `[\s\S]` takes every
      character, line breaks included. */
  function JsonSpanBounds(s: string): (r: Option<(nat, nat)>)
    ensures r.Some? ==> r.value.0 < r.value.1 < |s| && s[r.value.0] == '{' && s[r.value.1] == '}'
    ensures r.Some? ==> forall k :: 0 <= k < r.value.0 ==> s[k] != '{'
    ensures r.Some? ==> forall k :: r.value.1 < k < |s| ==> s[k] != '}'
    ensures r.None? <==> !exists i, j :: 0 <= i < j < |s| && s[i] == '{' && s[j] == '}'
  {
    var first := IndexOf(s, '{');
    var last := LastIndexOf(s, '}');
    if first.Some? && last.Some? && first.value < last.value then Some((first.value, last.value))
    else None
  }

  /** `jsonMatch[0]`, the matched text. */
  function JsonSpan(s: string): (r: Option<string>)
    ensures r.Some? ==> |r.value| >= 2 && r.value[0] == '{' && r.value[|r.value| - 1] == '}'
    ensures r.None? <==> JsonSpanBounds(s).None?
  {
    match JsonSpanBounds(s)
      case None => None
      case Some((i, j)) => Some(s[i..j + 1])
  }

  /** An object with prose around it that holds no '{' before and no '}'
      after is found exactly. */
  lemma JsonSpanOfWrapped(before: string, obj: string, after: string)
    requires '{' !in before && '}' !in after
    requires |obj| >= 2 && obj[0] == '{' && obj[|obj| - 1] == '}'
    ensures JsonSpan(before + obj + after) == Some(obj)
  {
    var s := before + obj + after;
    assert s[|before|] == '{' && s[|before| + |obj| - 1] == '}';
    var b := JsonSpanBounds(s);
    assert b.Some?;
    assert b.value.0 == |before| by {
      assert forall k :: 0 <= k < |before| ==> s[k] == before[k];
    }
    assert b.value.1 == |before| + |obj| - 1 by {
      assert forall k :: |before| + |obj| <= k < |s| ==> s[k] == after[k - |before| - |obj|];
    }
    assert s[|before|..|before| + |obj|] == obj;
  }

  /** The analysis the route returns. */
  datatype Analysis = Analysis(
    foodItems: seq<string>, totalCalories: int, protein: int, carbs: int, fats: int,
    fiber: int, sugar: int, servingSize: string, confidence: string, notes: string)

  /** The fallback of the `catch` branch. */
  function FallbackAnalysis(): Analysis
  {
    Analysis(["Unknown food item"], 0, 0, 0, 0, 0, 0, "Unknown", "low",
             "Could not accurately analyze the image. Please try again or enter manually.")
  }

  /** The parse step: `JSON.parse` of the span, or the fallback when there is
      no span or it does not parse. */
  function ParseAnalysis(content: string, parse: string -> Option<Analysis>): (a: Analysis)
    ensures JsonSpan(content).None? ==> a == FallbackAnalysis()
    ensures JsonSpan(content).Some? && parse(JsonSpan(content).value).None? ==> a == FallbackAnalysis()
    ensures JsonSpan(content).Some? && parse(JsonSpan(content).value).Some? ==> a == parse(JsonSpan(content).value).value
  {
    match JsonSpan(content)
      case None => FallbackAnalysis()
      case Some(text) =>
        match parse(text)
          case None => FallbackAnalysis()
          case Some(analysis) => analysis
  }

  /** A reply without a '{', or whose '}'s all come before its first '{',
      gives the fallback whatever the parser would say; the fallback claims
      no food and no nutrients. */
  lemma NoBracesFallBack(content: string, parse: string -> Option<Analysis>)
    requires forall i, j :: 0 <= i < j < |content| ==> !(content[i] == '{' && content[j] == '}')
    ensures ParseAnalysis(content, parse) == FallbackAnalysis()
    ensures var a := ParseAnalysis(content, parse);
      a.totalCalories == 0 && a.protein == 0 && a.carbs == 0 && a.fats == 0 && a.confidence == "low"
  {
  }

  /** A reply that wraps a parsable object in prose is read as that object. */
  lemma WrappedObjectParsed(before: string, obj: string, after: string, parse: string -> Option<Analysis>)
    requires '{' !in before && '}' !in after
    requires |obj| >= 2 && obj[0] == '{' && obj[|obj| - 1] == '}'
    requires parse(obj).Some?
    ensures ParseAnalysis(before + obj + after, parse) == parse(obj).value
  {
    JsonSpanOfWrapped(before, obj, after);
  }
}
