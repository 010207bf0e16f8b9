/** The route serving the storefront script: the file's text with the first
    occurrence of the app-URL placeholder replaced by the app URL, as
    JavaScript with caching and CORS headers; a fixed script and status 500
    when the file cannot be read. */
module ScriptServing {
  import opened Common
  import opened JsString

  const Placeholder := "${process.env.SHOPIFY_APP_URL"
  const DefaultAppUrl := "https://your-app-domain.com"
  const ErrorScript := "console.error('Error loading PageTest script');"

  /** How reading the script file ends. */
  datatype FileRead = FileContents(text: string) | ReadFailed

  datatype Response = Response(status: int, body: string, headers: seq<(string, string)>)

  const ScriptHeaders: seq<(string, string)> := [
    ("Content-Type", "application/javascript"),
    ("Cache-Control", "public, max-age=3600"),
    ("Access-Control-Allow-Origin", "*")]

  /** `process.env.SHOPIFY_APP_URL || "https://your-app-domain.com"`. */
  function AppUrl(env: Option<string>): string
  {
    if Truthy(env) then env.value else DefaultAppUrl
  }

  function Loader(env: Option<string>, file: FileRead): Response
  {
    match file
    case ReadFailed => Response(500, ErrorScript, [("Content-Type", "application/javascript")])
    case FileContents(text) => Response(200, ReplaceFirst(text, Placeholder, AppUrl(env)), ScriptHeaders)
  }

  // ---- Properties ----

  /** An unset or empty variable gives the default URL. */
  lemma AppUrlDefault(env: Option<string>)
    ensures AppUrl(env) == (if env.None? || env == Some("") then "https://your-app-domain.com" else env.value)
  {
  }

  /** Without the placeholder the file is served unchanged. */
  lemma PlaceholderAbsent(env: Option<string>, text: string)
    requires !Includes(text, Placeholder)
    ensures Loader(env, FileContents(text)) == Response(200, text, ScriptHeaders)
  {
    ReplaceAbsent(text, Placeholder, AppUrl(env));
  }

  /** Only the first occurrence is replaced, and all text around it is kept
      (for a URL without `$`, which `replace` would read as a pattern). */
  lemma FirstOccurrenceReplaced(env: Option<string>, text: string, i: nat)
    requires OccursAt(text, Placeholder, i)
    requires forall j :: 0 <= j < i ==> !OccursAt(text, Placeholder, j)
    requires '$' !in AppUrl(env)
    ensures Loader(env, FileContents(text)).body == text[..i] + AppUrl(env) + text[i + |Placeholder|..]
  {
    ReplaceFirstOccurrence(text, Placeholder, AppUrl(env), i);
  }

  /** A placeholder preceded by text without `$` is its first occurrence:
      it is replaced by the replacement string as `replace` reads it, with
      its `$` patterns interpreted. */
  lemma PlaceholderSubstituted(pre: string, post: string, rep: string)
    requires '$' !in pre
    ensures ReplaceFirst(pre + Placeholder + post, Placeholder, rep) ==
              pre + Substitute(rep, Placeholder, pre, post) + post
  {
    var text := pre + Placeholder + post;
    var i := |pre|;
    assert text[i..i + |Placeholder|] == Placeholder;
    forall j | 0 <= j < i ensures !OccursAt(text, Placeholder, j) {
      assert text[j] == pre[j] && pre[j] in pre;
      if j + |Placeholder| <= |text| {
        assert text[j..j + |Placeholder|][0] == text[j] != Placeholder[0];
      }
    }
    assert OccursAt(text, Placeholder, i);
    var r := IndexOf(text, Placeholder);
    assert r.Some?;
    assert r.value == i;
    assert text[..i] == pre;
    assert text[i + |Placeholder|..] == post;
  }

  /** With a `$`-free replacement as well, the replacement is inserted as
      it is. */
  lemma ReplaceAfterDollarFree(pre: string, post: string, rep: string)
    requires '$' !in pre && '$' !in rep
    ensures ReplaceFirst(pre + Placeholder + post, Placeholder, rep) == pre + rep + post
  {
    PlaceholderSubstituted(pre, post, rep);
    SubstituteLiteral(rep, Placeholder, pre, post);
  }

  /** An app URL holding `$$` is not served as it is: the pair comes out
      as a single dollar sign. */
  lemma DoubleDollarInAppUrl(pre: string, post: string)
    requires '$' !in pre
    ensures Loader(Some("a$$b"), FileContents(pre + Placeholder + post)).body == pre + "a$b" + post
  {
    assert AppUrl(Some("a$$b")) == "a$$b";
    PlaceholderSubstituted(pre, post, "a$$b");
    assert Substitute("b", Placeholder, pre, post) == "b";
    assert Substitute("$$b", Placeholder, pre, post) == "$b";
    assert Substitute("a$$b", Placeholder, pre, post) == "a$b";
  }

  /** An app URL `$&` serves the placeholder itself: the file comes out
      unchanged. */
  lemma MatchPatternInAppUrl(pre: string, post: string)
    requires '$' !in pre
    ensures Loader(Some("$&"), FileContents(pre + Placeholder + post)).body == pre + Placeholder + post
  {
    assert AppUrl(Some("$&")) == "$&";
    PlaceholderSubstituted(pre, post, "$&");
    assert Substitute("$&", Placeholder, pre, post) == Placeholder;
  }

  /** The configuration line of the storefront script, the placeholder
      followed by the fallback expression and the closing brace. */
  const ConfigTail := " || \"https://your-app-domain.com\"}'; // Will use your app's URL"
  const ConfigLine := "  '" + Placeholder + ConfigTail

  /** Served in any file whose earlier text has no `$`, the configuration
      line keeps its fallback expression and closing brace after the
      replaced URL: the result is not a valid template substitution. */
  lemma ConfigLineKeepsTail(env: Option<string>, before: string, after: string)
    requires '$' !in before && '$' !in AppUrl(env)
    ensures Loader(env, FileContents(before + ConfigLine + after)).body ==
              before + "  '" + AppUrl(env) + ConfigTail + after
  {
    var pre := before + "  '";
    assert '$' !in pre by {
      assert forall c :: c in pre ==> c in before || c in "  '";
    }
    var text := before + ConfigLine + after;
    var tail := ConfigTail + after;
    assert before + ConfigLine == pre + Placeholder + ConfigTail;
    assert text == pre + Placeholder + tail;
    var url := AppUrl(env);
    ReplaceAfterDollarFree(pre, tail, url);
    assert pre + url + tail == before + "  '" + url + ConfigTail + after;
  }

  /** A read failure gives the fixed error script, status 500 and only the
      content type; a success always has status 200 and the three headers. */
  lemma ResponseShape(env: Option<string>, file: FileRead)
    ensures var r := Loader(env, file);
            && (r.status == 500 <==> file.ReadFailed?)
            && (file.ReadFailed? ==>
                  (r.body == "console.error('Error loading PageTest script');"
                   && r.headers == [("Content-Type", "application/javascript")]))
            && (file.FileContents? ==> r.status == 200 && r.headers == ScriptHeaders)
  {
  }
}
