/** The resource service: named resources read from the application's bundled
    assets, the licence text with the application's own package filtered out, the
    OpenAPI documents of a resource source, and caches of parsed templates. */
module ResourceService {
  import opened Base

  // ---------------------------------------------------------------------------
  // filterLines

  /** Some word occurs in the line. */
  predicate Mentions(line: string, words: seq<string>) {
    exists j :: 0 <= j < |words| && Contains(line, words[j])
  }

  /** The lines that mention none of the words, in their original order. */
  function Kept(lines: seq<string>, words: seq<string>): seq<string>
    decreases |lines|
  {
    if |lines| == 0 then []
    else
      var n := |lines| - 1;
      Kept(lines[..n], words) + (if Mentions(lines[n], words) then [] else [lines[n]])
  }

  /** Every line followed by a newline. */
  function Terminated(lines: seq<string>): string
    decreases |lines|
  {
    if |lines| == 0 then ""
    else
      var n := |lines| - 1;
      Terminated(lines[..n]) + lines[n] + "\n"
  }

  /** The inner loop of filterLines: whether some word occurs in the line. */
  method FindWord(line: string, words: seq<string>) returns (found: bool)
    ensures found <==> Mentions(line, words)
  {
    found := false;
    var j := 0;
    while j < |words|
      invariant 0 <= j <= |words|
      invariant forall t :: 0 <= t < j ==> !Contains(line, words[t])
    {
      if Contains(line, words[j]) {
        return true;
      }
      j := j + 1;
    }
  }

  /** strings.Split at newlines, then every line that mentions none of the words,
      each followed by a newline. */
  method FilterLines(content: string, words: seq<string>) returns (out: string)
    ensures out == Terminated(Kept(Split(content, '\n'), words))
  {
    out := WriteKept(Split(content, '\n'), words);
  }

  /** The outer loop of filterLines over the lines. */
  method WriteKept(lines: seq<string>, words: seq<string>) returns (out: string)
    ensures out == Terminated(Kept(lines, words))
  {
    out := "";
    var i := 0;
    while i < |lines|
      invariant 0 <= i <= |lines|
      invariant out == Terminated(Kept(lines[..i], words))
    {
      var line := lines[i];
      var found := FindWord(line, words);
      ghost var kept := Kept(lines[..i], words);
      assert lines[..i + 1][..i] == lines[..i];
      assert Kept(lines[..i + 1], words) == kept + (if found then [] else [line]);
      if !found {
        assert (kept + [line])[..|kept|] == kept;
        out := out + line + "\n";
      } else {
        assert kept + [] == kept;
      }
      i := i + 1;
    }
    assert lines[..i] == lines;
  }

  /** No kept line mentions a word, and every line that mentions none is kept. */
  lemma {:induction false} KeptExactly(lines: seq<string>, words: seq<string>)
    ensures forall k :: 0 <= k < |Kept(lines, words)| ==> !Mentions(Kept(lines, words)[k], words)
    ensures forall i :: 0 <= i < |lines| && !Mentions(lines[i], words) ==> lines[i] in Kept(lines, words)
    decreases |lines|
  {
    if |lines| > 0 {
      var n := |lines| - 1;
      KeptExactly(lines[..n], words);
      forall i | 0 <= i < |lines| && !Mentions(lines[i], words)
        ensures lines[i] in Kept(lines, words)
      {
        if i < n {
          assert lines[i] == lines[..n][i];
        }
      }
    }
  }

  /** Filtering keeps the order: the lines kept from two blocks are those of the
      first block followed by those of the second. */
  lemma {:induction false} KeptAppend(a: seq<string>, b: seq<string>, words: seq<string>)
    ensures Kept(a + b, words) == Kept(a, words) + Kept(b, words)
    decreases |b|
  {
    if |b| == 0 {
      assert a + b == a;
    } else {
      var n := |b| - 1;
      KeptAppend(a, b[..n], words);
      assert (a + b)[..|a| + n] == a + b[..n];
    }
  }

  /** Terminating every line is joining them with a final empty line. */
  lemma {:induction false} TerminatedJoin(lines: seq<string>)
    ensures Terminated(lines) == Join(lines + [""], "\n")
    decreases |lines|
  {
    if |lines| > 0 {
      var n := |lines| - 1;
      TerminatedJoin(lines[..n]);
      JoinSnoc(lines, "", "\n");
      assert lines[..n] + [lines[n]] == lines;
      if n > 0 {
        JoinSnoc(lines[..n], "", "\n");
        JoinSnoc(lines[..n], lines[n], "\n");
      }
    }
  }

  /** The output of the filter, split at newlines again, is the kept lines and an
      empty piece after the last newline. */
  lemma FilterOutputSplits(content: string, words: seq<string>)
    ensures Split(Terminated(Kept(Split(content, '\n'), words)), '\n')
            == Kept(Split(content, '\n'), words) + [""]
  {
    var kept := Kept(Split(content, '\n'), words);
    KeptLinesOfPieces(Split(content, '\n'), words);
    TerminatedJoin(kept);
    SplitJoin(kept + [""], '\n');
  }

  /** Kept lines are lines of the input, so they hold no newline. */
  lemma {:induction false} KeptLinesOfPieces(lines: seq<string>, words: seq<string>)
    requires forall k :: 0 <= k < |lines| ==> '\n' !in lines[k]
    ensures forall k :: 0 <= k < |Kept(lines, words)| ==> '\n' !in Kept(lines, words)[k]
    decreases |lines|
  {
    if |lines| > 0 {
      KeptLinesOfPieces(lines[..|lines| - 1], words);
    }
  }

  /** Content ending in a newline splits into pieces whose last one is empty. */
  lemma {:induction false} SplitLastEmpty(s: string, sep: char)
    requires |s| > 0 && s[|s| - 1] == sep
    ensures var r := Split(s, sep); r[|r| - 1] == ""
    decreases |s|
  {
    assert sep in s;
    var i := IndexByte(s, sep);
    var rest := s[i + 1..];
    var tail := Split(rest, sep);
    assert Split(s, sep) == [s[..i]] + tail;
    if |rest| > 0 {
      assert rest[|rest| - 1] == sep;
      SplitLastEmpty(rest, sep);
    } else {
      assert IndexByte(rest, sep) == -1;
      assert tail == [""];
    }
  }

  /** Input ending in a newline yields an extra empty line when no word is empty:
      the empty piece after the last newline mentions nothing and is kept. */
  lemma ExtraEmptyLine(content: string, words: seq<string>)
    requires |content| > 0 && content[|content| - 1] == '\n'
    requires forall j :: 0 <= j < |words| ==> words[j] != ""
    ensures var kept := Kept(Split(content, '\n'), words); |kept| > 0 && kept[|kept| - 1] == ""
  {
    SplitLastEmpty(content, '\n');
    var lines := Split(content, '\n');
    assert !Mentions(lines[|lines| - 1], words);
  }

  // ---------------------------------------------------------------------------
  // The service

  /** A named group of bundled assets. */
  datatype ResourceSource = ResourceSource(name: string, assetNames: seq<string>)

  /** A parsed template: its name (the file name) and its text. */
  datatype Template = Template(name: string, text: string)

  /** A resource's content: "resource not found" for an unknown name; the bundle
      maps every known name to its content or to the error of opening or reading
      it (a panic while doing so already recovered into its text). */
  function Resource(resources: map<string, Result<string>>, name: string): (r: Result<string>)
    ensures name !in resources ==> r == Err("resource not found '" + name + "'")
    ensures name in resources ==> r == resources[name]
  {
    if name in resources then resources[name] else Err("resource not found '" + name + "'")
  }

  /** The concatenated readable ".swagger.json" assets among `names`, in order. */
  function Swagger(resources: map<string, Result<string>>, names: seq<string>): string
    decreases |names|
  {
    if |names| == 0 then ""
    else
      var n := |names| - 1;
      var r := Resource(resources, names[n]);
      Swagger(resources, names[..n])
      + (if HasSuffix(names[n], ".swagger.json") && r.Ok? then r.value else "")
  }

  /** The OpenAPI document of `source`: the swagger assets of every resource source
      of that name, in order. */
  function OpenAPI(resources: map<string, Result<string>>, sources: seq<ResourceSource>, source: string): string
    decreases |sources|
  {
    if |sources| == 0 then ""
    else
      var n := |sources| - 1;
      OpenAPI(resources, sources[..n], source)
      + (if sources[n].name == source then Swagger(resources, sources[n].assetNames) else "")
  }

  /** The documents of two lists of sources follow each other. */
  lemma {:induction false} OpenAPIAppend(resources: map<string, Result<string>>,
                                         a: seq<ResourceSource>, b: seq<ResourceSource>, source: string)
    ensures OpenAPI(resources, a + b, source) == OpenAPI(resources, a, source) + OpenAPI(resources, b, source)
    decreases |b|
  {
    if |b| == 0 {
      assert a + b == a;
    } else {
      var n := |b| - 1;
      OpenAPIAppend(resources, a, b[..n], source);
      assert (a + b)[..|a| + n] == a + b[..n];
      assert (a + b)[|a| + n] == b[n];
      assert OpenAPI(resources, a + b, source)
             == OpenAPI(resources, a + b[..n], source)
                + (if b[n].name == source then Swagger(resources, b[n].assetNames) else "");
    }
  }

  /** A source of another name contributes nothing, wherever it stands. */
  lemma OpenAPIIgnoresOtherSources(resources: map<string, Result<string>>,
                                   a: seq<ResourceSource>, s: ResourceSource, b: seq<ResourceSource>, source: string)
    requires s.name != source
    ensures OpenAPI(resources, a + [s] + b, source) == OpenAPI(resources, a + b, source)
  {
    OpenAPIAppend(resources, a + [s], b, source);
    OpenAPIAppend(resources, a, b, source);
    assert (a + [s])[..|a|] == a;
  }

  /** An asset that is not a ".swagger.json" file, or that cannot be read, adds
      nothing. */
  lemma {:induction false} SwaggerSkips(resources: map<string, Result<string>>, names: seq<string>, x: string)
    requires !HasSuffix(x, ".swagger.json") || Resource(resources, x).Err?
    ensures Swagger(resources, names + [x]) == Swagger(resources, names)
  {
    assert (names + [x])[..|names|] == names;
  }

  class ResourceService {
    /** The bundled resources and the resource sources that list their assets. */
    const resources: map<string, Result<string>>
    const sources: seq<ResourceSource>
    /** The template caches, keyed by file name. */
    var textTemplates: map<string, Template>
    var htmlTemplates: map<string, Template>

    /** A cached template is the successful parse of its resource's content. */
    ghost predicate Valid()
      reads this
    {
      (forall f :: f in textTemplates ==>
         f in resources && resources[f].Ok? && textTemplates[f] == Template(f, resources[f].value))
      && (forall f :: f in htmlTemplates ==>
            f in resources && resources[f].Ok? && htmlTemplates[f] == Template(f, resources[f].value))
    }

    constructor (resources: map<string, Result<string>>, sources: seq<ResourceSource>)
      ensures Valid()
      ensures this.resources == resources && this.sources == sources
      ensures textTemplates == map[] && htmlTemplates == map[]
    {
      this.resources := resources;
      this.sources := sources;
      textTemplates := map[];
      htmlTemplates := map[];
    }

    function GetResource(name: string): (r: Result<string>)
      ensures r == Resource(resources, name)
      ensures r.Err? && name !in resources ==> r.error == "resource not found '" + name + "'"
    {
      Resource(resources, name)
    }

    /** A text template: the cached one, or the resource parsed by the template
        library (`parseError` is its parse error) and cached on success; a
        failed read or parse is returned and not cached. */
    method TextTemplate(fileName: string, parseError: string -> Option<string>) returns (tmpl: Result<Template>)
      requires Valid()
      modifies this`textTemplates
      ensures Valid()
      ensures fileName in old(textTemplates) ==>
                tmpl == Ok(old(textTemplates)[fileName]) && textTemplates == old(textTemplates)
      ensures fileName !in old(textTemplates) ==>
                var res := Resource(resources, fileName);
                if res.Err? then tmpl == Err(res.error) && textTemplates == old(textTemplates)
                else if parseError(res.value).Some? then
                  tmpl == Err(parseError(res.value).value) && textTemplates == old(textTemplates)
                else
                  tmpl == Ok(Template(fileName, res.value))
                  && textTemplates == old(textTemplates)[fileName := Template(fileName, res.value)]
    {
      if fileName in textTemplates {
        return Ok(textTemplates[fileName]);
      }
      var res := GetResource(fileName);
      if res.Err? {
        return Err(res.error);
      }
      var perr := parseError(res.value);
      if perr.Some? {
        return Err(perr.value);
      }
      var tpl := Template(fileName, res.value);
      textTemplates := textTemplates[fileName := tpl];
      return Ok(tpl);
    }

    /** The HTML template cache, as `TextTemplate`. */
    method HtmlTemplate(fileName: string, parseError: string -> Option<string>) returns (tmpl: Result<Template>)
      requires Valid()
      modifies this`htmlTemplates
      ensures Valid()
      ensures fileName in old(htmlTemplates) ==>
                tmpl == Ok(old(htmlTemplates)[fileName]) && htmlTemplates == old(htmlTemplates)
      ensures fileName !in old(htmlTemplates) ==>
                var res := Resource(resources, fileName);
                if res.Err? then tmpl == Err(res.error) && htmlTemplates == old(htmlTemplates)
                else if parseError(res.value).Some? then
                  tmpl == Err(parseError(res.value).value) && htmlTemplates == old(htmlTemplates)
                else
                  tmpl == Ok(Template(fileName, res.value))
                  && htmlTemplates == old(htmlTemplates)[fileName := Template(fileName, res.value)]
    {
      if fileName in htmlTemplates {
        return Ok(htmlTemplates[fileName]);
      }
      var res := GetResource(fileName);
      if res.Err? {
        return Err(res.error);
      }
      var perr := parseError(res.value);
      if perr.Some? {
        return Err(perr.value);
      }
      var tpl := Template(fileName, res.value);
      htmlTemplates := htmlTemplates[fileName := tpl];
      return Ok(tpl);
    }

    /** The licence text `name`, with the lines naming the application's package
        (property "application.package") removed when that is set. */
    method GetLicenses(name: string, packageName: string) returns (output: string, err: Option<string>)
      ensures var res := Resource(resources, name);
              if res.Err? then output == "" && err == Some(res.error)
              else err.None?
                   && output == if packageName != "" then Terminated(Kept(Split(res.value, '\n'), [packageName]))
                                else res.value
    {
      var content := GetResource(name);
      if content.Err? {
        return "", Some(content.error);
      }
      if packageName != "" {
        output := FilterLines(content.value, [packageName]);
        return output, None;
      }
      return content.value, None;
    }

    /** The swagger documents of the sources named `source`. */
    method GetOpenAPI(source: string) returns (out: string)
      ensures out == OpenAPI(resources, sources, source)
    {
      out := "";
      var i := 0;
      while i < |sources|
        invariant 0 <= i <= |sources|
        invariant out == OpenAPI(resources, sources[..i], source)
      {
        assert sources[..i + 1][..i] == sources[..i];
        var rs := sources[i];
        if rs.name == source {
          ghost var before := out;
          var names := rs.assetNames;
          var j := 0;
          while j < |names|
            invariant 0 <= j <= |names|
            invariant out == before + Swagger(resources, names[..j])
          {
            assert names[..j + 1][..j] == names[..j];
            var name := names[j];
            if HasSuffix(name, ".swagger.json") {
              var content := GetResource(name);
              if content.Ok? {
                out := out + content.value;
              }
            }
            j := j + 1;
          }
          assert names[..j] == names;
        }
        i := i + 1;
      }
      assert sources[..i] == sources;
    }
  }
}
