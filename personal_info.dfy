/** The personal information block: each description line becomes a line
    break, a section title or a plain text line, and each social link shows
    its icon markup or nothing. */
module PersonalInfo {
  import opened Seqs
  import opened JsText
  import opened SiteData

  /** What one description line renders as. */
  datatype DescriptionItem = LineBreak | Title(text: string) | Line(text: string)

  /** A blank line is a break; a line that starts and ends with `==` is a
      title whose text is the line without any `==`, trimmed; any other
      line is shown as it is. */
  function ClassifyLine(line: string): (r: DescriptionItem)
    ensures r == LineBreak <==> AllWhiteSpace(line)
    ensures r.Title? <==> !AllWhiteSpace(line) && StartsWith(line, "==") && EndsWith(line, "==")
    ensures r.Line? ==> r.text == line && |line| > 0
    ensures r.Title? ==> |r.text| <= |line| - 2
  {
    TrimSpec(line);
    if Trim(line) == [] then LineBreak
    else if StartsWith(line, "==") && EndsWith(line, "==") then
      assert |RemoveAll(line, "==")| <= |line| - 2 by { RemoveAllDropsPrefix(line); }
      Title(Trim(RemoveAll(line, "==")))
    else Line(line)
  }

  /** A line that starts with `==` loses at least those two characters. */
  lemma RemoveAllDropsPrefix(line: string)
    requires StartsWith(line, "==")
    ensures |RemoveAll(line, "==")| <= |line| - 2
  {
    assert line != [];
  }

  /** A title's text holds no `==` and does not start or end with white space. */
  lemma {:induction false} TitleIsClean(line: string)
    requires ClassifyLine(line).Title?
    ensures !Includes(ClassifyLine(line).text, "==")
    ensures var t := ClassifyLine(line).text;
            t == [] || (!IsWhiteSpace(t[0]) && !IsWhiteSpace(t[|t| - 1]))
  {
    var stripped := RemoveAll(line, "==");
    var t := Trim(stripped);
    assert ClassifyLine(line).text == t;
    RemoveAllDoubleEquals(line);
    TrimSpec(stripped);
    NoDoubleEqualsIncluded(stripped, t);
    NoDoubleEqualsExcludes(t);
  }

  /** The rendered description: one item per line, in order. */
  function RenderDescription(lines: seq<string>): (r: seq<DescriptionItem>)
    ensures |r| == |lines|
    ensures forall i :: 0 <= i < |r| ==> r[i] == ClassifyLine(lines[i])
  {
    if lines == [] then [] else [ClassifyLine(lines[0])] + RenderDescription(lines[1..])
  }

  /** Rendering is line by line: the rendering of joined descriptions is the
      joined renderings. */
  lemma {:induction false} RenderConcat(a: seq<string>, b: seq<string>)
    ensures RenderDescription(a + b) == RenderDescription(a) + RenderDescription(b)
    decreases |a|
  {
    if a == [] {
      assert a + b == b;
    } else {
      assert (a + b)[1..] == a[1..] + b;
      RenderConcat(a[1..], b);
    }
  }

  /** `link.icon || ''`: the icon markup, empty when there is none. */
  function LinkIcon(link: SocialLink): (r: string)
    ensures r == [] <==> link.icon.None? || link.icon.value == []
    ensures r != [] ==> link.icon == Some(r)
  {
    if link.icon.Some? then link.icon.value else ""
  }

  /** Text without `=` passes `replace(/==/g, '')` unchanged. */
  lemma {:induction false} RemoveAllSkipsPlain(p: string, rest: string)
    requires forall i :: 0 <= i < |p| ==> p[i] != '='
    ensures RemoveAll(p + rest, "==") == p + RemoveAll(rest, "==")
    decreases |p|
  {
    if p != [] {
      var s := p + rest;
      assert s[0] == p[0];
      assert !StartsWith(s, "==");
      assert s[1..] == p[1..] + rest;
      assert RemoveAll(s, "==") == [s[0]] + RemoveAll(s[1..], "==");
      RemoveAllSkipsPlain(p[1..], rest);
      assert RemoveAll(s, "==") == [p[0]] + (p[1..] + RemoveAll(rest, "=="));
      assert [p[0]] + (p[1..] + RemoveAll(rest, "==")) == p + RemoveAll(rest, "==");
    } else {
      assert p + rest == rest;
    }
  }

  /** The title line of the site's own description loses its markers and
      the spaces around its text. */
  lemma SiteTitleLine()
    ensures ClassifyLine("== 常用ID ==") == Title("常用ID")
  {
    var s := "== 常用ID ==";
    assert StartsWith(s, "==") && EndsWith(s, "==");
    assert !AllWhiteSpace(s) by { assert !IsWhiteSpace(s[3]); }
    SiteTitleStripped();
    SiteTitleTrimmed();
  }

  lemma SiteTitleStripped()
    ensures RemoveAll("== 常用ID ==", "==") == " 常用ID "
  {
    var s := "== 常用ID ==";
    var inner := " 常用ID ";
    assert RemoveAll(s, "==") == RemoveAll(inner + "==", "==") by {
      assert StartsWith(s, "==");
      assert s[2..] == inner + "==";
    }
    RemoveAllSkipsPlain(inner, "==");
    assert RemoveAll("==", "==") == [] by {
      assert "=="[2..] == [];
    }
    assert inner + [] == inner;
  }

  lemma SiteTitleTrimmed()
    ensures Trim(" 常用ID ") == "常用ID"
  {
    var inner := " 常用ID ";
    var body := "常用ID ";
    var text := "常用ID";
    assert inner[1..] == body;
    assert IsWhiteSpace(inner[0]) && !IsWhiteSpace(body[0]);
    assert TrimStart(inner) == TrimStart(body);
    assert TrimStart(body) == body;
    assert body[..|body| - 1] == text;
    assert IsWhiteSpace(body[|body| - 1]) && !IsWhiteSpace(text[|text| - 1]);
    assert TrimEnd(body) == TrimEnd(text);
    assert TrimEnd(text) == text;
  }

  /** The other kinds of line of the site's own description: the empty line
      is a break and an id is a plain line. */
  lemma SitePlainLines()
    ensures ClassifyLine("") == LineBreak
    ensures ClassifyLine("OLC") == Line("OLC")
  {
    assert !AllWhiteSpace("OLC") by { assert !IsWhiteSpace("OLC"[0]); }
    assert !StartsWith("OLC", "==") by {
      assert "OLC"[..2][0] != "=="[0];
    }
  }
}
