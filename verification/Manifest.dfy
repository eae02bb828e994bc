/** Taken the manifest that kubectl applies, line by line, without looking at the template: what the rendered
    document says is what the resource asks for. */
module Manifest {
  import opened Api
  import opened Text
  import opened Builders
  import Template

  // ---- patterns of lines -------------------------------------------------------------------

  /** A line that is fixed, or one whose rest after a fixed beginning is a value. */
  datatype Pattern = Exactly(line: string) | Field(start: string)

  predicate Matches(p: Pattern, l: string)
  {
    match p
    case Exactly(line) => l == line
    case Field(start) => start <= l
  }

  datatype Taken = Taken(values: seq<string>, rest: seq<string>)

  /** The values of the fields, and the lines behind, when the lines match the patterns. */
  function Read(ps: seq<Pattern>, ls: seq<string>): Option<Taken>
  {
    if ps == [] then Some(Taken([], ls))
    else if ls == [] || !Matches(ps[0], ls[0]) then None
    else
      match Read(ps[1..], ls[1..])
      case None => None
      case Some(r) =>
        Some(Taken((if ps[0].Field? then [ls[0][|ps[0].start|..]] else []) + r.values, r.rest))
  }

  const METADATA := [
    Exactly("apiVersion: argoproj.io/v1alpha1"), Exactly("kind: ApplicationSet"), Exactly("metadata:"),
    Field("  name: "), Field("  namespace: ")]

  const OWNERS_LINE := "  ownerReferences:"

  const OWNERS := [
    Exactly(OWNERS_LINE), Field("  - apiVersion: "), Exactly("    blockOwnerDeletion: true"),
    Exactly("    controller: true"), Field("    kind: "), Field("    name: "), Field("    uid: ")]

  const GENERATOR := [
    Exactly("spec:"), Exactly("  generators:"), Exactly("  - list:"), Exactly("      elements:"),
    Field("      - namespace: "), Exactly("  template:"), Exactly("    metadata:"),
    Exactly("      name: '{{ namespace }}'")]

  const PROJECT := [
    Exactly("    spec:"), Field("      project: "), Exactly("      syncPolicy:"), Exactly("        syncOptions:"),
    Field("        - ApplyOutOfSyncOnly=")]

  const AUTOMATED_LINE := "        automated: {}"

  const CHART := [
    Exactly("      sources:"), Exactly("        - chart: jira"), Field("          repoURL: "),
    Field("          targetRevision: "), Exactly("          helm:"),
    Exactly("            releaseName: '{{ namespace }}'"), Exactly("            values: |")]

  const FILES_LINE := "            valueFiles:"

  const FILE_START := "                - "

  const GIT := [
    Field("        - repoURL: "), Field("          targetRevision: "), Exactly("          ref: values"),
    Exactly("      destination:"), Exactly("        server: " + "\"https://kubernetes.default.svc\""),
    Exactly("        namespace: '{{ namespace }}'")]

  /** The files of a list, up to the first line that is not an item of it. */
  function Files(ls: seq<string>): (fs: seq<string>)
    ensures |fs| <= |ls|
  {
    if ls == [] || !(FILE_START <= ls[0]) then [] else [ls[0][|FILE_START|..]] + Files(ls[1..])
  }

  // ---- the document ------------------------------------------------------------------------

  datatype Document = Document(
    name: string, namespace: string, owners: seq<OwnerRef>, generator: string, project: string,
    applyOutOfSyncOnly: string, automated: bool, chartRepo: string, chartRevision: string, values: string,
    valuesFiles: seq<string>, gitRepo: string, gitRevision: string)

  function ReadOwners(ls: seq<string>): Option<(seq<OwnerRef>, seq<string>)>
  {
    if ls == [] || ls[0] != OWNERS_LINE then Some(([], ls))
    else
      match Read(OWNERS, ls)
      case Some(Taken(v, rest)) =>
        if |v| == 4 then Some(([OwnerRef(v[0], v[1], v[2], v[3], true)], rest)) else None
      case None => None
  }

  /** The source section: chart, values, files, repository. */
  function ReadSource(head: Document, ls: seq<string>): Option<Document>
  {
    match Read(CHART, ls)
    case Some(Taken(v, r)) =>
      var block := Template.BlockLines(r);
      if |v| != 2 || block == [] then None
      else
        (match Read([Exactly(FILES_LINE)], r[|block|..])
         case Some(Taken(_, r')) =>
           var files := Files(r');
           (match Read(GIT, r'[|files|..])
            case Some(Taken(g, end)) =>
              if |g| != 2 || end != [] then None
              else Some(head.(chartRepo := v[0], chartRevision := v[1], values := Join(Template.Dedent(block)),
                              valuesFiles := files, gitRepo := g[0], gitRevision := g[1]))
            case None => None)
         case None => None)
    case None => None
  }

  function ReadProject(head: Document, ls: seq<string>): Option<Document>
  {
    match Read(PROJECT, ls)
    case Some(Taken(v, r)) =>
      if |v| != 2 then None
      else
        var automated := r != [] && r[0] == AUTOMATED_LINE;
        ReadSource(head.(project := v[0], applyOutOfSyncOnly := v[1], automated := automated),
                   if automated then r[1..] else r)
    case None => None
  }

  function ReadSpec(head: Document, ls: seq<string>): Option<Document>
  {
    match Read(GENERATOR, ls)
    case Some(Taken(v, r)) => if |v| != 1 then None else ReadProject(head.(generator := v[0]), r)
    case None => None
  }

  const BLANK_DOCUMENT := Document("", "", [], "", "", "", false, "", "", "", [], "", "")

  function ReadDocument(ls: seq<string>): Option<Document>
  {
    match Read(METADATA, ls)
    case Some(Taken(v, r)) =>
      if |v| != 2 then None
      else
        (match ReadOwners(r)
         case Some((owners, r')) => ReadSpec(BLANK_DOCUMENT.(name := v[0], namespace := v[1], owners := owners), r')
         case None => None)
    case None => None
  }

  // ---- lines that fit their patterns ---------------------------------------------------------

  /** The lines that the patterns stand for, with these values in the fields. */
  function Fill(ps: seq<Pattern>, vs: seq<string>): seq<string>
  {
    if ps == [] then []
    else if ps[0].Exactly? then [ps[0].line] + Fill(ps[1..], vs)
    else if vs == [] then []
    else [ps[0].start + vs[0]] + Fill(ps[1..], vs[1..])
  }

  function Fields(ps: seq<Pattern>): nat
  {
    if ps == [] then 0 else (if ps[0].Field? then 1 else 0) + Fields(ps[1..])
  }

  lemma {:induction false} ReadFilled(ps: seq<Pattern>, vs: seq<string>, rest: seq<string>)
    requires |vs| == Fields(ps)
    ensures Read(ps, Fill(ps, vs) + rest) == Some(Taken(vs, rest))
  {
    var ls := Fill(ps, vs) + rest;
    if ps == [] {
      assert ls == rest;
    } else if ps[0].Exactly? {
      ReadFilled(ps[1..], vs, rest);
      assert ls[1..] == Fill(ps[1..], vs) + rest;
      assert [] + vs == vs;
    } else {
      ReadFilled(ps[1..], vs[1..], rest);
      assert ls[1..] == Fill(ps[1..], vs[1..]) + rest;
      assert ls[0] == ps[0].start + vs[0];
      assert [vs[0]] + vs[1..] == vs;
    }
  }

  lemma {:induction false} ReadFiles(fs: seq<string>, rest: seq<string>)
    requires rest != [] && !(FILE_START <= rest[0])
    ensures Files(Prefixed(FILE_START, fs) + rest) == fs
    ensures |Prefixed(FILE_START, fs)| == |fs|
  {
    var ls := Prefixed(FILE_START, fs) + rest;
    if fs == [] {
      assert ls == rest;
    } else {
      ReadFiles(fs[1..], rest);
      assert ls[1..] == Prefixed(FILE_START, fs[1..]) + rest;
      assert ls[0] == FILE_START + fs[0];
    }
  }

  function Prefixed(start: string, ls: seq<string>): seq<string>
  {
    if ls == [] then [] else [start + ls[0]] + Prefixed(start, ls[1..])
  }

  lemma Step(ps: seq<Pattern>, i: nat, vs: seq<string>, k: nat)
    requires i < |ps| && k <= |vs| && (ps[i].Field? ==> k < |vs|)
    ensures Fill(ps[i..], vs[k..]) ==
            match ps[i]
            case Exactly(line) => [line] + Fill(ps[i + 1..], vs[k..])
            case Field(start) => [start + vs[k]] + Fill(ps[i + 1..], vs[k + 1..])
    ensures Fields(ps[i..]) == (if ps[i].Field? then 1 else 0) + Fields(ps[i + 1..])
  {
    assert ps[i..][0] == ps[i] && ps[i..][1..] == ps[i + 1..];
    if ps[i].Field? {
      assert vs[k..][0] == vs[k] && vs[k..][1..] == vs[k + 1..];
    }
  }

  lemma End(ps: seq<Pattern>, vs: seq<string>)
    ensures Fill(ps[|ps|..], vs[|vs|..]) == [] && Fields(ps[|ps|..]) == 0
  {
    assert ps[|ps|..] == [];
  }

  lemma MetadataFilled(vars: Template.Vars)
    ensures Template.MetadataLines(vars) == Fill(METADATA[1..], [Template.Lookup(vars, "namespace"),
        Template.Lookup(vars, "argoCDNamespace")]) && Fields(METADATA[1..]) == 2
  {
    hide Template.Lookup, Fill, Fields;
    var vs := [Template.Lookup(vars, "namespace"), Template.Lookup(vars, "argoCDNamespace")];
    Step(METADATA[1..], 0, vs, 0);
    Step(METADATA[1..], 1, vs, 0);
    Step(METADATA[1..], 2, vs, 0);
    Step(METADATA[1..], 3, vs, 1);
    End(METADATA[1..], vs);
    assert METADATA[1..][0..] == METADATA[1..] && vs[0..] == vs;
  }

  lemma GeneratorFilled(vars: Template.Vars)
    ensures Template.GeneratorLines(vars) == Fill(GENERATOR, [Template.Lookup(vars, "namespace")]) && Fields(GENERATOR) == 1
  {
    hide Template.Lookup, Fill, Fields;
    GeneratorIs(Template.Lookup(vars, "namespace"));
  }

  lemma GeneratorIs(name: string)
    ensures Fields(GENERATOR) == 1
    ensures Fill(GENERATOR, [name]) ==
            ["spec:", "  generators:", "  - list:", "      elements:", "      - namespace: " + name,
             "  template:", "    metadata:", "      name: '{{ namespace }}'"]
  {
    hide Fill, Fields;
    var vs := [name];
    GeneratorEnd(vs);
    Step(GENERATOR, 0, vs, 0);
    Step(GENERATOR, 1, vs, 0);
    Step(GENERATOR, 2, vs, 0);
    Step(GENERATOR, 3, vs, 0);
    Step(GENERATOR, 4, vs, 0);
    assert GENERATOR[0..] == GENERATOR && vs[0..] == vs;
  }

  lemma GeneratorEnd(vs: seq<string>)
    requires |vs| == 1
    ensures Fields(GENERATOR[5..]) == 0
    ensures Fill(GENERATOR[5..], vs[1..]) == ["  template:", "    metadata:", "      name: '{{ namespace }}'"]
  {
    hide Fill, Fields;
    Step(GENERATOR, 5, vs, 1);
    Step(GENERATOR, 6, vs, 1);
    Step(GENERATOR, 7, vs, 1);
    End(GENERATOR, vs);
  }

  lemma ProjectFilled(vars: Template.Vars)
    ensures Template.ProjectLines(vars) == Fill(PROJECT, [Template.Lookup(vars, "argoCDProject"),
        Template.Lookup(vars, "applyOutOfSyncOnly")]) && Fields(PROJECT) == 2
  {
    hide Template.Lookup, Fill, Fields;
    var vs := [Template.Lookup(vars, "argoCDProject"), Template.Lookup(vars, "applyOutOfSyncOnly")];
    Step(PROJECT, 0, vs, 0);
    Step(PROJECT, 1, vs, 0);
    Step(PROJECT, 2, vs, 1);
    Step(PROJECT, 3, vs, 1);
    Step(PROJECT, 4, vs, 1);
    End(PROJECT, vs);
    assert PROJECT[0..] == PROJECT && vs[0..] == vs;
  }

  lemma ChartFilled(vars: Template.Vars)
    ensures Template.ChartLines(vars) == Fill(CHART, [Template.Lookup(vars, "helmChartRepo"), Template.Lookup(vars,
        "helmChartVersion")]) && Fields(CHART) == 2
  {
    hide Template.Lookup, Fill, Fields;
    var vs := [Template.Lookup(vars, "helmChartRepo"), Template.Lookup(vars, "helmChartVersion")];
    Step(CHART, 0, vs, 0);
    Step(CHART, 1, vs, 0);
    Step(CHART, 2, vs, 0);
    Step(CHART, 3, vs, 1);
    Step(CHART, 4, vs, 2);
    Step(CHART, 5, vs, 2);
    Step(CHART, 6, vs, 2);
    End(CHART, vs);
    assert CHART[0..] == CHART && vs[0..] == vs;
  }

  lemma GitFilled(vars: Template.Vars)
    ensures Template.GitLines(vars) == Fill(GIT, [Template.Lookup(vars, "helmValuesGitRepo"), Template.Lookup(vars,
        "helmValuesRepoRevision")]) && Fields(GIT) == 2
  {
    hide Template.Lookup, Fill, Fields;
    var vs := [Template.Lookup(vars, "helmValuesGitRepo"), Template.Lookup(vars, "helmValuesRepoRevision")];
    assert Fill(GIT[3..], vs[2..]) ==
           ["      destination:", "        server: " + "\"https://kubernetes.default.svc\"",
            "        namespace: '{{ namespace }}'"] && Fields(GIT[3..]) == 0 by {
      Step(GIT, 3, vs, 2);
      Step(GIT, 4, vs, 2);
      Step(GIT, 5, vs, 2);
      End(GIT, vs);
    }
    Step(GIT, 0, vs, 0);
    Step(GIT, 1, vs, 1);
    Step(GIT, 2, vs, 2);
    assert GIT[0..] == GIT && vs[0..] == vs;
  }

  lemma OwnerLiterals()
    ensures "  - apiVersion: " + "app.atlassian.com/v1" == "  - apiVersion: app.atlassian.com/v1"
    ensures "    kind: " + "Jira" == "    kind: Jira"
  {
  }

  lemma OwnersFilled(vars: Template.Vars)
    requires !Template.Truth(vars, "retainOnDelete")
    ensures Template.OwnerLines(vars) == Fill(OWNERS, ["app.atlassian.com/v1", "Jira", Template.Lookup(vars,
        "namespace"), Template.Lookup(vars, "uid")]) && Fields(OWNERS) == 4
  {
    hide Template.Lookup, Fill, Fields;
    var name, uid := Template.Lookup(vars, "namespace"), Template.Lookup(vars, "uid");
    OwnersAre(name, uid);
  }

  lemma OwnersAre(name: string, uid: string)
    ensures Fields(OWNERS) == 4
    ensures Fill(OWNERS, ["app.atlassian.com/v1", "Jira", name, uid]) ==
            ["  ownerReferences:", "  - apiVersion: app.atlassian.com/v1", "    blockOwnerDeletion: true",
             "    controller: true", "    kind: Jira", "    name: " + name, "    uid: " + uid]
  {
    hide Fill, Fields;
    var vs := ["app.atlassian.com/v1", "Jira", name, uid];
    OwnerLiterals();
    assert Fill(OWNERS[4..], vs[1..]) ==
           ["    kind: Jira", "    name: " + name, "    uid: " + uid]
           && Fields(OWNERS[4..]) == 3 by {
      Step(OWNERS, 4, vs, 1);
      Step(OWNERS, 5, vs, 2);
      Step(OWNERS, 6, vs, 3);
      End(OWNERS, vs);
    }
    Step(OWNERS, 0, vs, 0);
    Step(OWNERS, 1, vs, 0);
    Step(OWNERS, 2, vs, 1);
    Step(OWNERS, 3, vs, 1);
    assert OWNERS[0..] == OWNERS && vs[0..] == vs;
  }

  // ---- the rendered lines --------------------------------------------------------------------

  lemma {:induction false} EmitAdds(pad: string, a: seq<string>, b: seq<string>)
    ensures Template.Emit(pad, a + b) == Template.Emit(pad, a) + Template.Emit(pad, b)
  {
    if a == [] {
      assert a + b == b;
    } else {
      EmitAdds(pad, a[1..], b);
      assert (a + b)[1..] == a[1..] + b;
    }
  }

  lemma {:induction false} EmitPrefixed(pad: string, ls: seq<string>)
    ensures Template.Emit(pad, ls) == Template.Emit("", Prefixed(pad, ls))
  {
    if ls != [] {
      EmitPrefixed(pad, ls[1..]);
      assert Template.NL + pad + ls[0] == Template.NL + "" + (pad + ls[0]);
    }
  }

  lemma {:induction false} EmitJoin(first: string, ls: seq<string>)
    ensures first + Template.Emit("", ls) == Join([first] + ls)
    decreases |ls|
  {
    if ls == [] {
      assert [first] + ls == [first];
    } else {
      EmitJoin(ls[0], ls[1..]);
      assert [ls[0]] + ls[1..] == ls && ([first] + ls)[1..] == ls;
      assert first + (Template.NL + "" + ls[0] + Template.Emit("", ls[1..])) ==
             first + [NEWLINE] + (ls[0] + Template.Emit("", ls[1..]));
    }
  }

  function HeadLines(vars: Template.Vars): seq<string>
  {
    Template.MetadataLines(vars) + Template.OwnerLines(vars) + Template.GeneratorLines(vars) +
    Template.ProjectLines(vars) + Template.SyncLines(vars) + Template.ChartLines(vars)
  }

  function TextOf(vars: Template.Vars): string
  {
    Template.Lookup(vars, "inLineValues") + Template.IngressText(vars)
  }

  function TailLines(vars: Template.Vars): seq<string>
  {
    [Template.BLOCK_END] + Prefixed(Template.PAD + "- ", Template.ValuesFiles(vars)) + Template.GitLines(vars)
  }

  function Lines(vars: Template.Vars): seq<string>
  {
    [Template.FIRST_LINE] + (HeadLines(vars) + Template.Indent(Split(TextOf(vars))) + TailLines(vars))
  }

  lemma BlockEmitted(vars: Template.Vars)
    requires Template.SingleLineValues(vars)
    ensures Template.ValuesBlock(vars) == Template.Emit("", Template.Indent(Split(TextOf(vars))))
  {
    var ls := Template.Indent(Split(TextOf(vars)));
    Template.BlockIsIndented(vars);
    EmitJoin(ls[0], ls[1..]);
    hide Template.ValuesBlock, Template.IngressText, Template.Lookup;
    assert [ls[0]] + ls[1..] == ls;
    assert Template.NL + "" + ls[0] + Template.Emit("", ls[1..]) == Template.NL + (ls[0] + Template.Emit("", ls[1..]));
  }

  lemma TailEmitted(vars: Template.Vars)
    ensures Template.NL + (Template.BLOCK_END + Template.FooterRest(vars)) == Template.Emit("", TailLines(vars))
  {
    hide Template.GitLines, Template.ValuesFiles, Prefixed;
    var files := Prefixed(Template.PAD + "- ", Template.ValuesFiles(vars));
    EmitPrefixed(Template.PAD + "- ", Template.ValuesFiles(vars));
    EmitAdds("", [Template.BLOCK_END] + files, Template.GitLines(vars));
    EmitAdds("", [Template.BLOCK_END], files);
    OneEmitted(Template.BLOCK_END);
  }

  lemma OneEmitted(l: string)
    ensures Template.Emit("", [l]) == Template.NL + l
  {
    assert [l][1..] == [];
  }

  /** The document is these lines. */
  lemma RenderedLines(vars: Template.Vars)
    requires Template.SingleLineValues(vars)
    ensures Template.Render(vars) == Join(Lines(vars))
  {
    hide Template.MetadataLines, Template.OwnerLines, Template.GeneratorLines, Template.ProjectLines, Template.SyncLines,
      Template.ChartLines, Template.ValuesBlock, Template.FooterRest, Template.Indent, Template.IngressText, TailLines,
      Template.Emit, Join, Split, Template.Lookup;
    var block := Template.Indent(Split(TextOf(vars)));
    BlockEmitted(vars);
    TailEmitted(vars);
    EmitAdds("", HeadLines(vars) + block, TailLines(vars));
    EmitAdds("", HeadLines(vars), block);
    EmitJoin(Template.FIRST_LINE, HeadLines(vars) + block + TailLines(vars));
  }

  // ---- every line is one line ------------------------------------------------------------------

  predicate AllOneLine(ls: seq<string>)
  {
    forall l | l in ls :: OneLine(l)
  }

  predicate PlainPatterns(ps: seq<Pattern>)
  {
    forall i | 0 <= i < |ps| :: OneLine(if ps[i].Exactly? then ps[i].line else ps[i].start)
  }

  lemma {:induction false} FilledOneLine(ps: seq<Pattern>, vs: seq<string>)
    requires PlainPatterns(ps) && AllOneLine(vs)
    ensures AllOneLine(Fill(ps, vs))
  {
    if ps != [] {
      assert OneLine(if ps[0].Exactly? then ps[0].line else ps[0].start);
      forall i | 0 <= i < |ps[1..]|
        ensures OneLine(if ps[1..][i].Exactly? then ps[1..][i].line else ps[1..][i].start)
      {
        assert ps[1..][i] == ps[i + 1];
      }
      if ps[0].Exactly? {
        FilledOneLine(ps[1..], vs);
      } else if vs != [] {
        assert vs[0] in vs;
        FilledOneLine(ps[1..], vs[1..]);
      }
    }
  }

  lemma {:induction false} PrefixedOneLine(start: string, ls: seq<string>)
    requires OneLine(start) && AllOneLine(ls)
    ensures AllOneLine(Prefixed(start, ls))
  {
    if ls != [] {
      assert ls[0] in ls;
      PrefixedOneLine(start, ls[1..]);
    }
  }

  lemma PlainMetadata1()
    ensures OneLine("kind: ApplicationSet")
    ensures OneLine("metadata:")
  {
  }

  lemma PlainMetadata2()
    ensures OneLine("  name: ")
    ensures OneLine("  namespace: ")
  {
  }

  lemma PlainMetadata3()
    ensures OneLine(Template.FIRST_LINE)
  {
  }

  lemma PlainMetadata()
    ensures PlainPatterns(METADATA[1..]) && OneLine(Template.FIRST_LINE)
  {
    hide OneLine;
    PlainMetadata1();
    PlainMetadata2();
    PlainMetadata3();
  }

  lemma PlainOwners1()
    ensures OneLine(OWNERS_LINE) && OneLine("  - apiVersion: ")
  {
  }

  lemma PlainOwners2()
    ensures OneLine("    blockOwnerDeletion: true") && OneLine("    controller: true")
  {
  }

  lemma PlainOwners3()
    ensures OneLine("    kind: ") && OneLine("    name: ") && OneLine("    uid: ")
  {
  }

  lemma PlainOwners()
    ensures PlainPatterns(OWNERS)
  {
    hide OneLine;
    PlainOwners1();
    PlainOwners2();
    PlainOwners3();
  }

  lemma PlainGenerator1()
    ensures OneLine("spec:") && OneLine("  generators:") && OneLine("  - list:")
  {
  }

  lemma PlainGenerator2()
    ensures OneLine("      elements:") && OneLine("      - namespace: ")
  {
  }

  lemma PlainGenerator3()
    ensures OneLine("  template:") && OneLine("    metadata:")
  {
  }

  lemma PlainGenerator4()
    ensures OneLine("      name: '{{ namespace }}'")
  {
  }

  lemma PlainGenerator()
    ensures PlainPatterns(GENERATOR)
  {
    hide OneLine;
    PlainGenerator1();
    PlainGenerator2();
    PlainGenerator3();
    PlainGenerator4();
  }

  lemma PlainProject1()
    ensures OneLine("    spec:") && OneLine("      project: ") && OneLine("      syncPolicy:")
  {
  }

  lemma PlainProject2()
    ensures OneLine("        syncOptions:") && OneLine("        - ApplyOutOfSyncOnly=")
  {
  }

  lemma PlainProject()
    ensures PlainPatterns(PROJECT)
  {
    hide OneLine;
    PlainProject1();
    PlainProject2();
  }

  lemma PlainSync()
    ensures OneLine(AUTOMATED_LINE)
  {
  }

  lemma PlainChart1()
    ensures OneLine("      sources:")
    ensures OneLine("        - chart: jira")
  {
  }

  lemma PlainChart2()
    ensures OneLine("          repoURL: ")
    ensures OneLine("          targetRevision: ")
  {
  }

  lemma PlainChart3()
    ensures OneLine("          helm:")
    ensures OneLine("            values: |")
  {
  }

  lemma PlainChart4()
    ensures OneLine("            releaseName: '{{ namespace }}'")
  {
  }

  lemma PlainChart()
    ensures PlainPatterns(CHART)
  {
    hide OneLine;
    PlainChart1();
    PlainChart2();
    PlainChart3();
    PlainChart4();
  }

  lemma PlainTail()
    ensures OneLine(FILES_LINE) && OneLine(FILE_START)
  {
  }

  lemma PlainGit1()
    ensures OneLine("        - repoURL: ")
    ensures OneLine("          targetRevision: ")
  {
  }

  lemma PlainGit2()
    ensures OneLine("          ref: values")
    ensures OneLine("      destination:")
  {
  }

  lemma PlainGit3()
    ensures OneLine("        server: " + "\"https://kubernetes.default.svc\"")
  {
    Template.OneLineAdds("        server: ", "\"https://kubernetes.default.svc\"");
  }

  lemma PlainGit4()
    ensures OneLine("        namespace: '{{ namespace }}'")
  {
  }

  lemma PlainGit()
    ensures PlainPatterns(GIT)
  {
    hide OneLine;
    PlainGit1();
    PlainGit2();
    PlainGit3();
    PlainGit4();
  }

  /** The values that go into a line each. */
  ghost predicate OneLiners(j: Jira)
  {
    && OneLine(j.name) && OneLine(j.uid) && OneLine(j.spec.hostname)
    && OneLine(j.spec.argo.namespace) && OneLine(j.spec.argo.project)
    && OneLine(j.spec.argo.chartRepo) && OneLine(j.spec.argo.chartVersion)
    && OneLine(j.spec.argo.gitRepo) && OneLine(j.spec.argo.gitRevision)
    && AllOneLine(j.spec.argo.valuesFiles) && AllOneLine(j.spec.network.subnetIds)
  }

  lemma ResourceNames(j: Jira)
    ensures var vars := Template.VarsOf(j);
            && Template.Lookup(vars, "namespace") == j.name && Template.Lookup(vars, "uid") == j.uid
            && Template.Lookup(vars, "argoCDNamespace") == j.spec.argo.namespace
            && Template.Lookup(vars, "argoCDProject") == j.spec.argo.project
            && Template.Lookup(vars, "applyOutOfSyncOnly") == (if j.spec.argo.applyOutOfSyncOnly then "true" else "false")
  {
  }

  lemma ResourceSources(j: Jira)
    ensures var vars := Template.VarsOf(j);
            && Template.Lookup(vars, "helmChartRepo") == j.spec.argo.chartRepo
            && Template.Lookup(vars, "helmChartVersion") == j.spec.argo.chartVersion
            && Template.Lookup(vars, "helmValuesGitRepo") == j.spec.argo.gitRepo
            && Template.Lookup(vars, "helmValuesRepoRevision") == j.spec.argo.gitRevision
  {
  }

  lemma ResourceFlags(j: Jira)
    ensures var vars := Template.VarsOf(j);
            && Template.Lookup(vars, "inLineValues") == j.spec.argo.valueOverrides
            && Template.Lookup(vars, "appHostname") == j.spec.hostname
            && Template.ValuesFiles(vars) == j.spec.argo.valuesFiles
            && Template.Truth(vars, "retainOnDelete") == j.spec.argo.retainOnDelete
            && Template.Truth(vars, "autoSync") == j.spec.argo.autoSync
  {
  }

  lemma ResourceValues(j: Jira)
    ensures var vars := Template.VarsOf(j);
            && Template.Lookup(vars, "namespace") == j.name && Template.Lookup(vars, "uid") == j.uid
            && Template.Lookup(vars, "argoCDNamespace") == j.spec.argo.namespace
            && Template.Lookup(vars, "argoCDProject") == j.spec.argo.project
            && Template.Lookup(vars, "applyOutOfSyncOnly") == (if j.spec.argo.applyOutOfSyncOnly then "true" else "false")
    ensures var vars := Template.VarsOf(j);
            && Template.Lookup(vars, "helmChartRepo") == j.spec.argo.chartRepo
            && Template.Lookup(vars, "helmChartVersion") == j.spec.argo.chartVersion
            && Template.Lookup(vars, "helmValuesGitRepo") == j.spec.argo.gitRepo
            && Template.Lookup(vars, "helmValuesRepoRevision") == j.spec.argo.gitRevision
            && Template.Lookup(vars, "inLineValues") == j.spec.argo.valueOverrides
            && Template.Lookup(vars, "appHostname") == j.spec.hostname
            && Template.ValuesFiles(vars) == j.spec.argo.valuesFiles
            && Template.Truth(vars, "retainOnDelete") == j.spec.argo.retainOnDelete
            && Template.Truth(vars, "autoSync") == j.spec.argo.autoSync
  {
    hide Template.VarsOf, Template.Lookup, Template.Truth, Template.ValuesFiles;
    ResourceNames(j);
    ResourceSources(j);
    ResourceFlags(j);
  }

  lemma FlagOneLine()
    ensures OneLine("true") && OneLine("false")
  {
  }

  lemma HeadOneLine(j: Jira)
    requires OneLiners(j)
    ensures AllOneLine(HeadLines(Template.VarsOf(j)))
  {
    hide Template.VarsOf, Template.Lookup, Template.Truth, Template.MetadataLines, Template.GeneratorLines,
      Template.ProjectLines, Template.ChartLines, Fill, PlainPatterns, OneLine, Fields;
    var vars := Template.VarsOf(j);
    ResourceValues(j);
    FlagOneLine();
    PlainMetadata();
    PlainGenerator();
    PlainProject();
    PlainChart();
    PlainSync();
    MetadataFilled(vars);
    GeneratorFilled(vars);
    ProjectFilled(vars);
    ChartFilled(vars);
    var n := Template.Lookup(vars, "namespace");
    FilledOneLine(METADATA[1..], [n, Template.Lookup(vars, "argoCDNamespace")]);
    FilledOneLine(GENERATOR, [n]);
    FilledOneLine(PROJECT, [Template.Lookup(vars, "argoCDProject"), Template.Lookup(vars, "applyOutOfSyncOnly")]);
    FilledOneLine(CHART, [Template.Lookup(vars, "helmChartRepo"), Template.Lookup(vars, "helmChartVersion")]);
    OwnersOneLine(j);
  }

  lemma OwnersOneLine(j: Jira)
    requires OneLiners(j)
    ensures AllOneLine(Template.OwnerLines(Template.VarsOf(j)))
  {
    hide Template.VarsOf, Template.Lookup, Template.Truth, Fill, PlainPatterns, OneLine, Fields;
    var vars := Template.VarsOf(j);
    ResourceValues(j);
    PlainOwners();
    RefOneLine();
    if !Template.Truth(vars, "retainOnDelete") {
      OwnersFilled(vars);
      hide Template.OwnerLines;
      FilledOneLine(OWNERS, ["app.atlassian.com/v1", "Jira", Template.Lookup(vars, "namespace"),
          Template.Lookup(vars, "uid")]);
    }
  }

  lemma RefOneLine()
    ensures OneLine("app.atlassian.com/v1") && OneLine("Jira")
  {
  }

  lemma TailOneLine(j: Jira)
    requires OneLiners(j)
    ensures AllOneLine(TailLines(Template.VarsOf(j)))
  {
    hide Template.VarsOf, Template.Lookup, Template.GitLines, Template.ValuesFiles, Fill, PlainPatterns, OneLine,
        Fields, Prefixed;
    var vars := Template.VarsOf(j);
    ResourceValues(j);
    PlainTail();
    PlainGit();
    GitFilled(vars);
    FileStart();
    FilledOneLine(GIT, [Template.Lookup(vars, "helmValuesGitRepo"), Template.Lookup(vars, "helmValuesRepoRevision")]);
    PrefixedOneLine(FILE_START, Template.ValuesFiles(vars));
  }

  lemma FileStart()
    ensures Template.PAD + "- " == FILE_START && Template.BLOCK_END == FILES_LINE
  {
  }

  /** The lines of the manifest. */
  lemma ManifestLines(j: Jira)
    requires OneLiners(j)
    ensures Template.SingleLineValues(Template.VarsOf(j))
    ensures Split(Template.Manifest(j)) == Lines(Template.VarsOf(j))
  {
    hide Template.VarsOf, Template.Lookup, Template.Render, Template.SingleLineValues, Template.Indent, Template.IngressText,
      HeadLines, TailLines, Split, Join, OneLine;
    var vars := Template.VarsOf(j);
    SingleLines(j);
    RenderedLines(vars);
    HeadOneLine(j);
    TailOneLine(j);
    PlainMetadata();
    SplitLines(TextOf(vars));
    Template.IndentOneLine(Split(TextOf(vars)));
    SplitJoin(Lines(vars));
  }

  lemma SingleLines(j: Jira)
    requires OneLiners(j)
    ensures Template.SingleLineValues(Template.VarsOf(j))
  {
    hide OneLine, Template.Commas, Template.AlbTags;
    Template.TagsOneLine(j);
    Template.CommasOneLine(j.spec.network.subnetIds);
    Template.AnnotationValues(j);
  }

  // ---- what is read back -----------------------------------------------------------------------

  lemma ReadHead(j: Jira, rest: seq<string>)
    requires OneLiners(j)
    ensures var vars := Template.VarsOf(j);
            Read(METADATA, [Template.FIRST_LINE] + (Template.MetadataLines(vars) + rest)) ==
            Some(Taken([j.name, j.spec.argo.namespace], rest))
  {
    hide Template.VarsOf, Template.Lookup, Template.MetadataLines, Fill, Fields, OneLiners, Read;
    var vars := Template.VarsOf(j);
    ResourceValues(j);
    MetadataFilled(vars);
    var vs := [Template.Lookup(vars, "namespace"), Template.Lookup(vars, "argoCDNamespace")];
    ReadFilled(METADATA[1..], vs, rest);
    FirstLineRead(Template.MetadataLines(vars) + rest);
  }

  lemma FirstLineRead(ls: seq<string>)
    ensures Read(METADATA[1..], ls).Some? ==>
              Read(METADATA, [Template.FIRST_LINE] + ls) == Read(METADATA[1..], ls)
  {
    var all := [Template.FIRST_LINE] + ls;
    assert all[1..] == ls;
    if Read(METADATA[1..], ls).Some? {
      var r := Read(METADATA[1..], ls).value;
      assert [] + r.values == r.values;
    }
  }

  lemma ReadOwnersBack(j: Jira, rest: seq<string>)
    requires OneLiners(j) && rest != [] && rest[0] == "spec:"
    ensures ReadOwners(Template.OwnerLines(Template.VarsOf(j)) + rest) ==
            Some((if j.spec.argo.retainOnDelete then []
                  else [OwnerRef("app.atlassian.com/v1", "Jira", j.name, j.uid, true)], rest))
  {
    hide Template.VarsOf, Template.Lookup, Template.Truth, Fill, Fields, OneLiners, Read;
    var vars := Template.VarsOf(j);
    ResourceValues(j);
    if j.spec.argo.retainOnDelete {
      assert Template.OwnerLines(vars) + rest == rest;
    } else {
      OwnersFilled(vars);
      assert (Template.OwnerLines(vars) + rest)[0] == OWNERS_LINE;
      hide Template.OwnerLines;
      ReadFilled(OWNERS, ["app.atlassian.com/v1", "Jira", Template.Lookup(vars, "namespace"), Template.Lookup(vars,
          "uid")], rest);
    }
  }

  lemma ReadSourceBack(j: Jira, head: Document)
    requires OneLiners(j) && Template.SingleLineValues(Template.VarsOf(j))
    ensures var vars := Template.VarsOf(j);
            ReadSource(head, Template.ChartLines(vars) + (Template.Indent(Split(TextOf(vars))) + TailLines(vars))) ==
            Some(head.(chartRepo := j.spec.argo.chartRepo, chartRevision := j.spec.argo.chartVersion,
                       values := TextOf(vars), valuesFiles := j.spec.argo.valuesFiles,
                       gitRepo := j.spec.argo.gitRepo, gitRevision := j.spec.argo.gitRevision))
  {
    hide Template.VarsOf, Template.Lookup, Template.ChartLines, Template.Indent, Template.Dedent, Template.BlockLines,
      Template.GitLines, Template.ValuesFiles, Template.Padded, Prefixed, Files, Fill, Fields, OneLiners, Read,
          TextOf, Split, Join;
    var vars := Template.VarsOf(j);
    var block := Template.Indent(Split(TextOf(vars)));
    ResourceValues(j);
    ChartFilled(vars);
    ReadFilled(CHART, [Template.Lookup(vars, "helmChartRepo"), Template.Lookup(vars, "helmChartVersion")],
        block + TailLines(vars));
    FilesLineEndsBlock();
    Template.BlockLinesStop(block, TailLines(vars));
    Template.DedentIndent(Split(TextOf(vars)));
    JoinSplit(TextOf(vars));
    assert (block + TailLines(vars))[|block|..] == TailLines(vars);
    FileStart();
    GitFilled(vars);
    var files := Prefixed(FILE_START, Template.ValuesFiles(vars));
    var git := Template.GitLines(vars);
    ReadLine(FILES_LINE, files + git);
    assert TailLines(vars) == [FILES_LINE] + (files + git);
    GitIsNoFile(vars);
    ReadFiles(Template.ValuesFiles(vars), git);
    assert (files + git)[|files|..] == git;
    assert git + [] == git;
    ReadFilled(GIT, [Template.Lookup(vars, "helmValuesGitRepo"), Template.Lookup(vars, "helmValuesRepoRevision")], []);
  }

  lemma ReadLine(l: string, rest: seq<string>)
    ensures Read([Exactly(l)], [l] + rest) == Some(Taken([], rest))
  {
    assert ([l] + rest)[1..] == rest && [Exactly(l)][1..] == [];
    assert [] + Read([], rest).value.values == [];
  }

  lemma FilesLineEndsBlock()
    ensures !Template.Padded(Template.BLOCK_END)
  {
    assert Template.BLOCK_END[12] == 'v';
    assert |Template.PAD| <= |Template.BLOCK_END| ==> Template.BLOCK_END[..|Template.PAD|][12] == 'v';
  }

  lemma GitIsNoFile(vars: Template.Vars)
    ensures Template.GitLines(vars) != [] && !(FILE_START <= Template.GitLines(vars)[0])
  {
    hide Template.Lookup;
    var l := Template.GitLines(vars)[0];
    assert l[8] == '-' && FILE_START[8] == ' ';
  }

  lemma ReadSpecBack(j: Jira, head: Document)
    requires OneLiners(j) && Template.SingleLineValues(Template.VarsOf(j))
    ensures var vars := Template.VarsOf(j);
            ReadSpec(head, Template.GeneratorLines(vars) + (Template.ProjectLines(vars) + (Template.SyncLines(vars) +
                           (Template.ChartLines(vars) + (Template.Indent(Split(TextOf(vars))) + TailLines(vars)))))) ==
            Some(head.(generator := j.name, project := j.spec.argo.project,
                       applyOutOfSyncOnly := if j.spec.argo.applyOutOfSyncOnly then "true" else "false",
                       automated := j.spec.argo.autoSync,
                       chartRepo := j.spec.argo.chartRepo, chartRevision := j.spec.argo.chartVersion,
                       values := TextOf(vars), valuesFiles := j.spec.argo.valuesFiles,
                       gitRepo := j.spec.argo.gitRepo, gitRevision := j.spec.argo.gitRevision))
  {
    hide Template.VarsOf, Template.Lookup, Template.Truth, Template.GeneratorLines, Template.ProjectLines,
      Template.Indent, TailLines, Fill, Fields, OneLiners, Read, TextOf, Split, ReadSource;
    var vars := Template.VarsOf(j);
    var rest := Template.ChartLines(vars) + (Template.Indent(Split(TextOf(vars))) + TailLines(vars));
    ResourceValues(j);
    GeneratorFilled(vars);
    ProjectFilled(vars);
    ReadFilled(GENERATOR, [Template.Lookup(vars, "namespace")],
        Template.ProjectLines(vars) + (Template.SyncLines(vars) + rest));
    ReadFilled(PROJECT, [Template.Lookup(vars, "argoCDProject"), Template.Lookup(vars, "applyOutOfSyncOnly")],
               Template.SyncLines(vars) + rest);
    var after := Template.SyncLines(vars) + rest;
    assert rest[0] == "      sources:" != AUTOMATED_LINE;
    if j.spec.argo.autoSync {
      assert after[0] == AUTOMATED_LINE && after[1..] == rest;
    } else {
      assert after == rest;
    }
    ReadSourceBack(j, head.(generator := j.name, project := j.spec.argo.project,
                            applyOutOfSyncOnly := Template.Lookup(vars, "applyOutOfSyncOnly"),
                                automated := j.spec.argo.autoSync));
  }

  lemma Regrouped(j: Jira)
    ensures var vars := Template.VarsOf(j);
            Lines(vars) ==
            [Template.FIRST_LINE] + (Template.MetadataLines(vars) + (Template.OwnerLines(vars) + (Template.GeneratorLines(vars) +
            (Template.ProjectLines(vars) + (Template.SyncLines(vars) + (Template.ChartLines(vars) +
            (Template.Indent(Split(TextOf(vars))) + TailLines(vars))))))))
  {
    hide Template.VarsOf, Template.MetadataLines, Template.OwnerLines, Template.GeneratorLines, Template.ProjectLines,
      Template.SyncLines, Template.ChartLines, Template.Indent, TailLines, Split, TextOf;
  }

  /** The values that the block of the manifest gives to the chart: the override text, and the ingress of the resource. */
  lemma IngressOf(j: Jira)
    ensures TextOf(Template.VarsOf(j)) ==
            j.spec.argo.valueOverrides + Join(
              ["ingress:", "    host: " + j.spec.hostname,
                  "    annotations:"] + Template.AnnotationLines(Template.Annotations(j)))
  {
    hide Template.Annotations, Template.AnnotationLines, Join;
    var more := Template.AnnotationLines(Template.Annotations(j));
    assert ["ingress:"] + (["    host: " + j.spec.hostname, "    annotations:"] + more) ==
           ["ingress:", "    host: " + j.spec.hostname, "    annotations:"] + more;
  }

  /** A reader of the manifest finds the resource's own name, project, repositories, files and values in it; owner
      references if and only if the set is not to be retained, and then to the resource; automated synchronisation
      if and only if the resource asks for it. */
  ghost predicate Says(manifest: string, j: Jira)
  {
    ReadDocument(Split(manifest)) ==
    Some(Document(
           j.name, j.spec.argo.namespace,
           if j.spec.argo.retainOnDelete then [] else [OwnerRef("app.atlassian.com/v1", "Jira", j.name, j.uid, true)],
           j.name, j.spec.argo.project, if j.spec.argo.applyOutOfSyncOnly then "true" else "false",
           j.spec.argo.autoSync, j.spec.argo.chartRepo, j.spec.argo.chartVersion,
           j.spec.argo.valueOverrides + Join(
             ["ingress:", "    host: " + j.spec.hostname, "    annotations:"] +
             Template.AnnotationLines(Template.Annotations(j))),
           j.spec.argo.valuesFiles, j.spec.argo.gitRepo, j.spec.argo.gitRevision))
  }

  lemma ManifestSays(j: Jira)
    requires OneLiners(j)
    ensures Says(Template.Manifest(j), j)
  {
    hide Template.VarsOf, Template.MetadataLines, Template.OwnerLines, Template.ProjectLines,
      Template.SyncLines, Template.ChartLines, Template.Indent, Template.Annotations, Template.AnnotationLines, TailLines,
      Split, Join, TextOf, Lines, Read, ReadOwners, ReadSpec, OneLiners, Template.Manifest;
    var vars := Template.VarsOf(j);
    ManifestLines(j);
    Regrouped(j);
    var spec := Template.GeneratorLines(vars) + (Template.ProjectLines(vars) + (Template.SyncLines(vars) +
                (Template.ChartLines(vars) + (Template.Indent(Split(TextOf(vars))) + TailLines(vars)))));
    ReadHead(j, Template.OwnerLines(vars) + spec);
    ReadOwnersBack(j, spec);
    var owners := if j.spec.argo.retainOnDelete then [] else [OwnerRef("app.atlassian.com/v1", "Jira", j.name, j.uid, true)];
    ReadSpecBack(j, BLANK_DOCUMENT.(name := j.name, namespace := j.spec.argo.namespace, owners := owners));
    IngressOf(j);
  }

  /** ProcessApplicationSetTemplate, up to the file it writes. */
  method ProcessTemplate(j: Jira) returns (manifest: string)
    ensures manifest == Template.Manifest(j) && (OneLiners(j) ==> Says(manifest, j))
  {
    hide Says, OneLiners, Template.Render, Template.Commas;
    var subnets := Template.Commas(j.spec.network.subnetIds);
    var albTags := Template.AlbTags(j);
    var ingressAnnotations := [
      (Template.ALB + "certificate-arn",
       Template.CERTIFICATE),
      (Template.ALB + "healthcheck-path", "/status"),
      (Template.ALB + "listen-ports", "[{\"HTTP\": 80}, {\"HTTPS\": 443}]"),
      (Template.ALB + "scheme", "internal"),
      (Template.ALB + "ssl-policy", "ELBSecurityPolicy-FS-1-2-Res-2020-10"),
      (Template.ALB + "subnets", subnets),
      (Template.ALB + "tags", albTags),
      (Template.ALB + "target-group-attributes",
       Template.STICKINESS),
      (Template.ALB + "target-type", "ip"),
      ("external-dns.alpha.kubernetes.io/hostname", j.spec.hostname)];
    var vars: Template.Vars := map[];
    vars := vars["namespace" := Template.Str(j.name)];
    vars := vars["argoCDNamespace" := Template.Str(j.spec.argo.namespace)];
    vars := vars["argoCDProject" := Template.Str(j.spec.argo.project)];
    vars := vars["autoSync" := Template.Flag(j.spec.argo.autoSync)];
    vars := vars["retainOnDelete" := Template.Flag(j.spec.argo.retainOnDelete)];
    vars := vars["uid" := Template.Str(j.uid)];
    vars := vars["applyOutOfSyncOnly" := Template.Str(Template.FormatBool(j.spec.argo.applyOutOfSyncOnly))];
    vars := vars["helmChartRepo" := Template.Str(j.spec.argo.chartRepo)];
    vars := vars["helmChartVersion" := Template.Str(j.spec.argo.chartVersion)];
    vars := vars["helmValuesGitRepo" := Template.Str(j.spec.argo.gitRepo)];
    vars := vars["helmValuesRepoRevision" := Template.Str(j.spec.argo.gitRevision)];
    vars := vars["valuesFiles" := Template.Strs(j.spec.argo.valuesFiles)];
    vars := vars["appHostname" := Template.Str(j.spec.hostname)];
    vars := vars["IngressAnnotations" := Template.Pairs(ingressAnnotations)];
    vars := vars["inLineValues" := Template.Str(j.spec.argo.valueOverrides)];
    manifest := Template.Render(vars);
    if OneLiners(j) {
      ManifestSays(j);
    }
  }

  /** So the object that the manifest creates has the name, namespace and owners that the plan counts on. */
  lemma ManifestAgrees(j: Jira)
    requires OneLiners(j)
    ensures var o := GetApplicationSet(j);
            var d := ReadDocument(Split(Template.Manifest(j)));
            && o.body == ApplicationSetBody(Template.Manifest(j)) && d.Some?
            && o.key == Key(ApplicationSet, d.value.namespace, d.value.name) && o.owners == d.value.owners
            && (o.owners == [] <==> j.spec.argo.retainOnDelete)
  {
    hide Template.Manifest, ReadDocument, OneLiners, Join, Template.AnnotationLines;
    ManifestSays(j);
  }

  // ---- lines that occur nowhere else -----------------------------------------------------------

  function TextIn(p: Pattern): string
  {
    match p case Exactly(line) => line case Field(start) => start
  }

  /** Each pattern differs from the line, at the given position. */
  predicate Differ(ps: seq<Pattern>, line: string, at: seq<nat>)
  {
    |at| == |ps| &&
    forall i | 0 <= i < |ps| :: at[i] < |TextIn(ps[i])| && at[i] < |line| && TextIn(ps[i])[at[i]] != line[at[i]]
  }

  lemma {:induction false} NotInFilled(ps: seq<Pattern>, vs: seq<string>, line: string, at: seq<nat>)
    requires Differ(ps, line, at)
    ensures line !in Fill(ps, vs)
  {
    if ps != [] {
      assert at[0] < |TextIn(ps[0])| && TextIn(ps[0])[at[0]] != line[at[0]];
      forall i | 0 <= i < |ps[1..]|
        ensures at[1..][i] < |TextIn(ps[1..][i])| && at[1..][i] < |line|
            && TextIn(ps[1..][i])[at[1..][i]] != line[at[1..][i]]
      {
        assert ps[1..][i] == ps[i + 1] && at[1..][i] == at[i + 1];
      }
      if ps[0].Exactly? {
        NotInFilled(ps[1..], vs, line, at[1..]);
      } else if vs != [] {
        NotInFilled(ps[1..], vs[1..], line, at[1..]);
        assert (ps[0].start + vs[0])[at[0]] == ps[0].start[at[0]];
      }
    }
  }

  lemma {:induction false} NotInPrefixed(start: string, ls: seq<string>, line: string, at: nat)
    requires at < |start| && at < |line| && start[at] != line[at]
    ensures line !in Prefixed(start, ls)
  {
    if ls != [] {
      NotInPrefixed(start, ls[1..], line, at);
      assert (start + ls[0])[at] == start[at];
    }
  }

  lemma NotInBlock(ls: seq<string>, line: string, at: nat)
    requires at < |Template.PAD| && at < |line| && Template.PAD[at] != line[at]
    ensures line !in Template.Indent(ls)
  {
    forall l | l in Template.Indent(ls)
      ensures l != line
    {
      assert Template.Padded(l);
      assert l[..|Template.PAD|][at] == l[at];
    }
  }

  lemma NoOwnersInMetadata()
    ensures Differ(METADATA[1..], OWNERS_LINE, [0, 0, 2, 2])
  {
  }

  lemma NoOwnersInGenerator()
    ensures Differ(GENERATOR, OWNERS_LINE, [0, 2, 2, 2, 2, 2, 2, 2])
  {
  }

  lemma NoOwnersInProject()
    ensures Differ(PROJECT, OWNERS_LINE, [2, 2, 2, 2, 2])
  {
  }

  lemma NoOwnersInChart()
    ensures Differ(CHART, OWNERS_LINE, [2, 2, 2, 2, 2, 2, 2])
  {
  }

  lemma StartOf(a: string, b: string, k: nat)
    requires k < |a|
    ensures (a + b)[k] == a[k]
  {
  }

  lemma NoOwnersInGit()
    ensures Differ(GIT, OWNERS_LINE, [2, 2, 2, 2, 2, 2])
  {
    StartOf("        server: ", "\"https://kubernetes.default.svc\"", 2);
  }

  lemma NoAutomatedInMetadata()
    ensures Differ(METADATA[1..], AUTOMATED_LINE, [0, 0, 2, 2])
  {
  }

  lemma NoAutomatedInOwners()
    ensures Differ(OWNERS, AUTOMATED_LINE, [2, 2, 4, 4, 4, 4, 4])
  {
  }

  lemma NoAutomatedInGenerator()
    ensures Differ(GENERATOR, AUTOMATED_LINE, [0, 2, 2, 6, 6, 2, 4, 6])
  {
  }

  lemma NoAutomatedInProject()
    ensures Differ(PROJECT, AUTOMATED_LINE, [4, 6, 6, 8, 8])
  {
  }

  lemma NoAutomatedInChart()
    ensures Differ(CHART, AUTOMATED_LINE, [6, 8, 8, 8, 8, 8, 8])
  {
  }

  lemma NoAutomatedInGit()
    ensures Differ(GIT, AUTOMATED_LINE, [8, 8, 8, 6, 8, 8])
  {
    StartOf("        server: ", "\"https://kubernetes.default.svc\"", 8);
  }

  lemma OwnersLiterals()
    ensures OWNERS_LINE[2] == 'o' && FILE_START[2] == ' ' && Template.PAD[2] == ' '
    ensures OWNERS_LINE != Template.FIRST_LINE && OWNERS_LINE != FILES_LINE
  {
    assert Template.FIRST_LINE[0] == 'a' && OWNERS_LINE[0] == ' ' && FILES_LINE[2] == ' ';
  }

  lemma OwnersLineNotSync()
    ensures OWNERS_LINE != AUTOMATED_LINE
  {
    assert OWNERS_LINE[2] == 'o' && AUTOMATED_LINE[2] == ' ';
  }

  lemma AutomatedLiterals()
    ensures AUTOMATED_LINE[8] == 'a' && FILE_START[8] == ' ' && Template.PAD[8] == ' '
    ensures AUTOMATED_LINE != Template.FIRST_LINE && AUTOMATED_LINE != FILES_LINE
  {
    assert Template.FIRST_LINE[0] == 'a' && AUTOMATED_LINE[0] == ' ' && FILES_LINE[8] == ' ';
  }

  lemma AutomatedNotAnOwner(vars: Template.Vars)
    ensures AUTOMATED_LINE !in Template.OwnerLines(vars)
  {
    hide Template.Lookup, Template.Truth, Fill, Fields, Differ;
    if !Template.Truth(vars, "retainOnDelete") {
      OwnersFilled(vars);
      NoAutomatedInOwners();
      hide Template.OwnerLines;
      NotInFilled(OWNERS, ["app.atlassian.com/v1", "Jira", Template.Lookup(vars, "namespace"), Template.Lookup(vars,
          "uid")], AUTOMATED_LINE, [2, 2, 4, 4, 4, 4, 4]);
    }
  }

  /** The manifest has owner references if and only if the set is not to be retained. */
  lemma OwnersLineOccurs(j: Jira)
    requires OneLiners(j)
    ensures OWNERS_LINE in Split(Template.Manifest(j)) <==> !j.spec.argo.retainOnDelete
  {
    hide Template.VarsOf, Template.Lookup, Template.Truth, Template.MetadataLines, Template.GeneratorLines,
      Template.ProjectLines, Template.ChartLines, Template.GitLines, Template.ValuesFiles, Template.Indent,
          Template.Manifest,
      Fill, Fields, Prefixed, Differ, Split, TextOf, OneLiners;
    var vars := Template.VarsOf(j);
    ManifestLines(j);
    ResourceValues(j);
    MetadataFilled(vars);
    GeneratorFilled(vars);
    ProjectFilled(vars);
    ChartFilled(vars);
    GitFilled(vars);
    FileStart();
    NoOwnersInMetadata();
    NotInFilled(METADATA[1..], [Template.Lookup(vars, "namespace"), Template.Lookup(vars, "argoCDNamespace")],
        OWNERS_LINE, [0, 0, 2, 2]);
    NoOwnersInGenerator();
    NotInFilled(GENERATOR, [Template.Lookup(vars, "namespace")], OWNERS_LINE, [0, 2, 2, 2, 2, 2, 2, 2]);
    NoOwnersInProject();
    NotInFilled(PROJECT, [Template.Lookup(vars, "argoCDProject"), Template.Lookup(vars, "applyOutOfSyncOnly")],
        OWNERS_LINE, [2, 2, 2, 2, 2]);
    NoOwnersInChart();
    NotInFilled(CHART, [Template.Lookup(vars, "helmChartRepo"), Template.Lookup(vars, "helmChartVersion")],
        OWNERS_LINE, [2, 2, 2, 2, 2, 2, 2]);
    NoOwnersInGit();
    NotInFilled(GIT, [Template.Lookup(vars, "helmValuesGitRepo"), Template.Lookup(vars, "helmValuesRepoRevision")],
        OWNERS_LINE, [2, 2, 2, 2, 2, 2]);
    OwnersLineNotSync();
    OwnersLiterals();
    NotInPrefixed(FILE_START, Template.ValuesFiles(vars), OWNERS_LINE, 2);
    NotInBlock(Split(TextOf(vars)), OWNERS_LINE, 2);
  }

  /** The manifest asks for automated synchronisation if and only if the resource does. */
  lemma AutomatedLineOccurs(j: Jira)
    requires OneLiners(j)
    ensures AUTOMATED_LINE in Split(Template.Manifest(j)) <==> j.spec.argo.autoSync
  {
    hide Template.VarsOf, Template.Lookup, Template.Truth, Template.MetadataLines, Template.GeneratorLines,
      Template.ProjectLines, Template.ChartLines, Template.GitLines, Template.ValuesFiles, Template.Indent,
          Template.Manifest,
      Fill, Fields, Prefixed, Differ, Split, TextOf, OneLiners;
    var vars := Template.VarsOf(j);
    ManifestLines(j);
    ResourceValues(j);
    MetadataFilled(vars);
    GeneratorFilled(vars);
    ProjectFilled(vars);
    ChartFilled(vars);
    GitFilled(vars);
    FileStart();
    NoAutomatedInMetadata();
    NotInFilled(METADATA[1..], [Template.Lookup(vars, "namespace"), Template.Lookup(vars, "argoCDNamespace")],
        AUTOMATED_LINE, [0, 0, 2, 2]);
    NoAutomatedInGenerator();
    NotInFilled(GENERATOR, [Template.Lookup(vars, "namespace")], AUTOMATED_LINE, [0, 2, 2, 6, 6, 2, 4, 6]);
    NoAutomatedInProject();
    NotInFilled(PROJECT, [Template.Lookup(vars, "argoCDProject"), Template.Lookup(vars, "applyOutOfSyncOnly")],
        AUTOMATED_LINE, [4, 6, 6, 8, 8]);
    NoAutomatedInChart();
    NotInFilled(CHART, [Template.Lookup(vars, "helmChartRepo"), Template.Lookup(vars, "helmChartVersion")],
        AUTOMATED_LINE, [6, 8, 8, 8, 8, 8, 8]);
    NoAutomatedInGit();
    NotInFilled(GIT, [Template.Lookup(vars, "helmValuesGitRepo"), Template.Lookup(vars, "helmValuesRepoRevision")],
        AUTOMATED_LINE, [8, 8, 8, 6, 8, 8]);
    AutomatedNotAnOwner(vars);
    hide Template.OwnerLines;
    AutomatedLiterals();
    NotInPrefixed(FILE_START, Template.ValuesFiles(vars), AUTOMATED_LINE, 8);
    NotInBlock(Split(TextOf(vars)), AUTOMATED_LINE, 8);
  }

  // ---- the ingress annotations -----------------------------------------------------------------

  /** The parts of a text between its commas. */
  function Parts(s: string): (ps: seq<string>)
    ensures |ps| > 0
  {
    if s == "" then [""]
    else if s[0] == ',' then [""] + Parts(s[1..])
    else
      var rest := Parts(s[1..]);
      [[s[0]] + rest[0]] + rest[1..]
  }

  lemma {:induction false} PartsCons(p: string, s: string)
    requires ',' !in p
    ensures Parts(p) == [p] && Parts(p + "," + s) == [p] + Parts(s)
  {
    var t := p + "," + s;
    if p == "" {
      assert t[1..] == s;
    } else {
      PartsCons(p[1..], s);
      assert t[1..] == p[1..] + "," + s;
      assert [p[0]] + p[1..] == p;
    }
  }

  /** A comma-separated list of texts without commas is read back as that list. */
  lemma {:induction false} CommasReadBack(ss: seq<string>)
    requires ss != [] && forall s | s in ss :: ',' !in s
    ensures Parts(Template.Commas(ss)) == ss
  {
    assert ss[0] in ss;
    if |ss| == 1 {
      PartsCons(ss[0], "");
      assert ss == [ss[0]];
    } else {
      CommasReadBack(ss[1..]);
      PartsCons(ss[0], Template.Commas(ss[1..]));
      assert ss == [ss[0]] + ss[1..];
    }
  }

  lemma {:induction false} AnnotationAt(ps: seq<(string, string)>, i: nat)
    requires i < |ps|
    ensures Template.AnnotationLines(ps)[i] == "        '" + ps[i].0 + "': '" + ps[i].1 + "'"
  {
    if i > 0 {
      AnnotationAt(ps[1..], i - 1);
    }
  }

  lemma FixedAnnotations(j: Jira)
    ensures var ps := Template.Annotations(j);
            && |ps| == 10
            && ps[0] == ("alb.ingress.kubernetes.io/" + "certificate-arn",
                         "arn:aws:acm:ap-southeast-2:629205377521:" + "certificate/" + "7d398889-d2ed-42e4-94e7-16fded6498f1")
            && ps[1] == ("alb.ingress.kubernetes.io/" + "healthcheck-path", "/status")
            && ps[2] == ("alb.ingress.kubernetes.io/" + "listen-ports", "[{\"HTTP\": 80}, {\"HTTPS\": 443}]")
            && ps[3] == ("alb.ingress.kubernetes.io/" + "scheme", "internal")
            && ps[4] == ("alb.ingress.kubernetes.io/" + "ssl-policy", "ELBSecurityPolicy-FS-1-2-Res-2020-10")
            && ps[5] == ("alb.ingress.kubernetes.io/" + "subnets", Template.Commas(j.spec.network.subnetIds))
            && ps[6] == ("alb.ingress.kubernetes.io/" + "tags", Template.AlbTags(j))
            && ps[7] == ("alb.ingress.kubernetes.io/" + "target-group-attributes",
                         "stickiness.enabled=true," + "stickiness.lb_cookie.duration_seconds=43200")
            && ps[8] == ("alb.ingress.kubernetes.io/" + "target-type", "ip")
            && ps[9] == ("external-dns.alpha.kubernetes.io/hostname", j.spec.hostname)
  {
    hide Template.Commas, Template.AlbTags;
  }

  lemma TagsRead(j: Jira)
    requires ',' !in j.name
    ensures Parts(Template.AlbTags(j)) ==
            ["service_name=" + j.name, "Name=" + j.name, "business_unit=WorkplaceTechnology", "resource_owner=mgibson"]
  {
    hide Parts, Template.Commas;
    CommasReadBack(["service_name=" + j.name, "Name=" + j.name, "business_unit=WorkplaceTechnology",
        "resource_owner=mgibson"]);
  }

  /** The ten annotations of the ingress: the fixed ones, and those of the resource's subnets, tags and hostname,
      each on a line of its own. */
  lemma AnnotationsSay(j: Jira)
    requires ',' !in j.name
    requires j.spec.network.subnetIds != [] && forall s | s in j.spec.network.subnetIds :: ',' !in s
    ensures var ps := Template.Annotations(j);
            && |ps| == 10
            && (forall i | 0 <= i < 10 :: Template.AnnotationLines(ps)[i] == "        '" + ps[i].0 + "': '" + ps[i].1 + "'")
            && ps[0] == ("alb.ingress.kubernetes.io/" + "certificate-arn",
                         "arn:aws:acm:ap-southeast-2:629205377521:" + "certificate/" + "7d398889-d2ed-42e4-94e7-16fded6498f1")
            && ps[1] == ("alb.ingress.kubernetes.io/" + "healthcheck-path", "/status")
            && ps[2] == ("alb.ingress.kubernetes.io/" + "listen-ports", "[{\"HTTP\": 80}, {\"HTTPS\": 443}]")
            && ps[3] == ("alb.ingress.kubernetes.io/" + "scheme", "internal")
            && ps[4] == ("alb.ingress.kubernetes.io/" + "ssl-policy", "ELBSecurityPolicy-FS-1-2-Res-2020-10")
            && ps[5].0 == "alb.ingress.kubernetes.io/" + "subnets" && Parts(ps[5].1) == j.spec.network.subnetIds
            && ps[6].0 == "alb.ingress.kubernetes.io/" + "tags"
            && Parts(ps[6].1) == ["service_name=" + j.name, "Name=" + j.name, "business_unit=WorkplaceTechnology",
                                  "resource_owner=mgibson"]
            && ps[7] == ("alb.ingress.kubernetes.io/" + "target-group-attributes",
                         "stickiness.enabled=true," + "stickiness.lb_cookie.duration_seconds=43200")
            && ps[8] == ("alb.ingress.kubernetes.io/" + "target-type", "ip")
            && ps[9] == ("external-dns.alpha.kubernetes.io/hostname", j.spec.hostname)
  {
    hide Parts, Template.Commas, Template.AlbTags, Template.AnnotationLines;
    var ps := Template.Annotations(j);
    FixedAnnotations(j);
    TagsRead(j);
    CommasReadBack(j.spec.network.subnetIds);
    hide Template.Annotations;
    forall i | 0 <= i < 10
      ensures Template.AnnotationLines(ps)[i] == "        '" + ps[i].0 + "': '" + ps[i].1 + "'"
    {
      AnnotationAt(ps, i);
    }
  }
}
