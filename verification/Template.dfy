/** argocd/applicationset.yaml.tpl and the variables that ProcessApplicationSetTemplate binds to it. */
module Template {
  import opened Api
  import opened Text

  datatype Value = Str(s: string) | Flag(b: bool) | Strs(ss: seq<string>) | Pairs(ps: seq<(string, string)>)

  type Vars = map<string, Value>

  const PAD := "                "
  const NL: string := [NEWLINE]

  /** text/template prints "<no value>" for a missing map entry. */
  function Lookup(vars: Vars, k: string): string
  {
    if k in vars && vars[k].Str? then vars[k].s else "<no value>"
  }

  function Truth(vars: Vars, k: string): bool
  {
    k in vars && vars[k].Flag? && vars[k].b
  }

  /** The body of a range: a newline, the indentation, the item. */
  function Emit(pad: string, ls: seq<string>): string
  {
    if ls == [] then "" else NL + pad + ls[0] + Emit(pad, ls[1..])
  }

  // ---- the template, from top to bottom ------------------------------------------------

  function OwnerLines(vars: Vars): seq<string>
  {
    if Truth(vars, "retainOnDelete") then []
    else ["  ownerReferences:", "  - apiVersion: app.atlassian.com/v1", "    blockOwnerDeletion: true",
          "    controller: true", "    kind: Jira", "    name: " + Lookup(vars, "namespace"),
          "    uid: " + Lookup(vars, "uid")]
  }

  function MetadataLines(vars: Vars): seq<string>
  {
    ["kind: ApplicationSet", "metadata:", "  name: " + Lookup(vars, "namespace"),
     "  namespace: " + Lookup(vars, "argoCDNamespace")]
  }

  function GeneratorLines(vars: Vars): seq<string>
  {
    ["spec:", "  generators:", "  - list:", "      elements:", "      - namespace: " + Lookup(vars, "namespace"),
     "  template:", "    metadata:", "      name: '{{ namespace }}'"]
  }

  function ProjectLines(vars: Vars): seq<string>
  {
    ["    spec:", "      project: " + Lookup(vars, "argoCDProject"), "      syncPolicy:", "        syncOptions:",
     "        - ApplyOutOfSyncOnly=" + Lookup(vars, "applyOutOfSyncOnly")]
  }

  function SyncLines(vars: Vars): seq<string>
  {
    if Truth(vars, "autoSync") then ["        automated: {}"] else []
  }

  function ChartLines(vars: Vars): seq<string>
  {
    ["      sources:", "        - chart: jira", "          repoURL: " + Lookup(vars, "helmChartRepo"),
     "          targetRevision: " + Lookup(vars, "helmChartVersion"), "          helm:",
     "            releaseName: '{{ namespace }}'", "            values: |"]
  }

  const FIRST_LINE := "apiVersion: argoproj.io/v1alpha1"

  function Header(vars: Vars): string
  {
    FIRST_LINE +
    Emit("", MetadataLines(vars) + OwnerLines(vars) + GeneratorLines(vars) + ProjectLines(vars) + SyncLines(vars) +
             ChartLines(vars))
  }

  function AnnotationLines(ps: seq<(string, string)>): (ls: seq<string>)
    ensures |ls| == |ps|
  {
    if ps == [] then [] else ["        '" + ps[0].0 + "': '" + ps[0].1 + "'"] + AnnotationLines(ps[1..])
  }

  /** The lines after "ingress:", relative to the block's own indentation. */
  function IngressDetails(vars: Vars): seq<string>
  {
    ["    host: " + Lookup(vars, "appHostname"), "    annotations:"] +
    (if "IngressAnnotations" in vars && vars["IngressAnnotations"].Pairs?
     then AnnotationLines(vars["IngressAnnotations"].ps) else [])
  }

  function IngressText(vars: Vars): string
  {
    Join(["ingress:"] + IngressDetails(vars))
  }

  /** Everything between "values: |" and the key that ends the block: no newline before "ingress:". */
  function ValuesBlock(vars: Vars): string
  {
    Emit(PAD, Split(Lookup(vars, "inLineValues"))) + "ingress:" + Emit(PAD, IngressDetails(vars))
  }

  function ValuesFiles(vars: Vars): seq<string>
  {
    if "valuesFiles" in vars && vars["valuesFiles"].Strs? then vars["valuesFiles"].ss else []
  }

  function GitLines(vars: Vars): seq<string>
  {
    ["        - repoURL: " + Lookup(vars, "helmValuesGitRepo"),
     "          targetRevision: " + Lookup(vars, "helmValuesRepoRevision"), "          ref: values",
     "      destination:", "        server: " + "\"https://kubernetes.default.svc\"",
     "        namespace: '{{ namespace }}'"]
  }

  function FooterRest(vars: Vars): string
  {
    Emit(PAD + "- ", ValuesFiles(vars)) + Emit("", GitLines(vars))
  }

  const BLOCK_END := "            valueFiles:"

  function Render(vars: Vars): string
  {
    Header(vars) + (ValuesBlock(vars) + NL + (BLOCK_END + FooterRest(vars)))
  }

  // ---- argocd/applicationset.go ---------------------------------------------------------

  function Commas(ss: seq<string>): string
  {
    if ss == [] then "" else if |ss| == 1 then ss[0] else ss[0] + "," + Commas(ss[1..])
  }

  function AlbTags(j: Jira): string
  {
    Commas(["service_name=" + j.name, "Name=" + j.name, "business_unit=WorkplaceTechnology",
            "resource_owner=mgibson"])
  }

  const ALB := "alb.ingress.kubernetes.io/"
  const CERTIFICATE := "arn:aws:acm:ap-southeast-2:629205377521:" + "certificate/" + "7d398889-d2ed-42e4-94e7-16fded6498f1"
  const STICKINESS := "stickiness.enabled=true," + "stickiness.lb_cookie.duration_seconds=43200"

  /** A template ranges over a map in the order of its keys. */
  function Annotations(j: Jira): seq<(string, string)>
  {
    [(ALB + "certificate-arn",
      CERTIFICATE),
     (ALB + "healthcheck-path", "/status"),
     (ALB + "listen-ports", "[{\"HTTP\": 80}, {\"HTTPS\": 443}]"),
     (ALB + "scheme", "internal"),
     (ALB + "ssl-policy", "ELBSecurityPolicy-FS-1-2-Res-2020-10"),
     (ALB + "subnets", Commas(j.spec.network.subnetIds)),
     (ALB + "tags", AlbTags(j)),
     (ALB + "target-group-attributes",
      STICKINESS),
     (ALB + "target-type", "ip"),
     ("external-dns.alpha.kubernetes.io/hostname", j.spec.hostname)]
  }

  function FormatBool(b: bool): string { if b then "true" else "false" }

  function VarsOf(j: Jira): Vars
  {
    map["namespace" := Str(j.name), "argoCDNamespace" := Str(j.spec.argo.namespace),
        "argoCDProject" := Str(j.spec.argo.project), "autoSync" := Flag(j.spec.argo.autoSync),
        "retainOnDelete" := Flag(j.spec.argo.retainOnDelete), "uid" := Str(j.uid),
        "applyOutOfSyncOnly" := Str(FormatBool(j.spec.argo.applyOutOfSyncOnly)),
        "helmChartRepo" := Str(j.spec.argo.chartRepo), "helmChartVersion" := Str(j.spec.argo.chartVersion),
        "helmValuesGitRepo" := Str(j.spec.argo.gitRepo), "helmValuesRepoRevision" := Str(j.spec.argo.gitRevision),
        "valuesFiles" := Strs(j.spec.argo.valuesFiles), "appHostname" := Str(j.spec.hostname),
        "IngressAnnotations" := Pairs(Annotations(j)), "inLineValues" := Str(j.spec.argo.valueOverrides)]
  }

  function Manifest(j: Jira): string
  {
    Render(VarsOf(j))
  }

  // ---- reading the block back: a literal block scalar (section 8.1.2 of YAML 1.2.2) -----

  predicate Padded(l: string) { |PAD| <= |l| && l[..|PAD|] == PAD }

  /** The lines of the block: those indented at least as far as its content. */
  function BlockLines(ls: seq<string>): (r: seq<string>)
    ensures |r| <= |ls| && r == ls[..|r|]
    ensures forall l | l in r :: Padded(l)
  {
    if ls == [] || !Padded(ls[0]) then [] else [ls[0]] + BlockLines(ls[1..])
  }

  function Dedent(ls: seq<string>): (r: seq<string>)
    requires forall l | l in ls :: Padded(l)
    ensures |r| == |ls|
  {
    if ls == [] then [] else assert ls[0] in ls && Padded(ls[0]); [ls[0][|PAD|..]] + Dedent(ls[1..])
  }

  function Indent(ls: seq<string>): (r: seq<string>)
    ensures |r| == |ls|
    ensures forall l | l in r :: Padded(l)
  {
    if ls == [] then [] else [PAD + ls[0]] + Indent(ls[1..])
  }

  /** The scalar's value, up to its final line break; document starts right after "values: |". */
  function ReadBlock(document: string): (v: Option<string>)
  {
    if document == "" || document[0] != NEWLINE then None
    else
      var ls := Dedent(BlockLines(Split(document[1..])));
      if ls == [] then None else Some(Join(ls))
  }

  lemma Unpadded(l: string)
    ensures Padded(PAD + l) && (PAD + l)[|PAD|..] == l
  {
  }

  lemma {:induction false} DedentIndent(ls: seq<string>)
    ensures Dedent(Indent(ls)) == ls
  {
    hide Padded;
    if ls != [] {
      var i := Indent(ls);
      DedentIndent(ls[1..]);
      assert i[0] == PAD + ls[0] && i[1..] == Indent(ls[1..]);
      Unpadded(ls[0]);
      assert ls == [ls[0]] + ls[1..];
    }
  }

  lemma {:induction false} EmitIsJoin(ls: seq<string>)
    requires ls != []
    ensures Emit(PAD, ls) == NL + Join(Indent(ls))
  {
    var i := Indent(ls);
    if |ls| == 1 {
      assert Emit(PAD, ls[1..]) == "";
      assert NL + PAD + ls[0] + "" == NL + i[0];
    } else {
      EmitIsJoin(ls[1..]);
      assert i[1..] == Indent(ls[1..]);
      assert NL + PAD + ls[0] + (NL + Join(i[1..])) == NL + ((PAD + ls[0]) + NL + Join(i[1..]));
    }
  }

  lemma {:induction false} EmitConcat(a: seq<string>, b: seq<string>)
    ensures Emit(PAD, a) + Emit(PAD, b) == Emit(PAD, a + b)
  {
    if a == [] {
      assert a + b == b;
    } else {
      EmitConcat(a[1..], b);
      assert (a + b)[1..] == a[1..] + b;
      assert (NL + PAD + a[0] + Emit(PAD, a[1..])) + Emit(PAD, b) == NL + PAD + a[0] + (Emit(PAD, a[1..]) + Emit(PAD, b));
    }
  }

  /** Text printed straight after a range lands on the range's last line. */
  lemma {:induction false} EmitGlue(a: seq<string>, t: string)
    requires a != []
    ensures Emit(PAD, a) + t == Emit(PAD, Glue(a, [t]))
  {
    if |a| == 1 {
      assert Glue(a, [t]) == [a[0] + t];
      assert Emit(PAD, a) == NL + PAD + a[0];
      assert Emit(PAD, [a[0] + t]) == NL + PAD + (a[0] + t);
    } else {
      EmitGlue(a[1..], t);
      GlueHead(a[0], a[1..], [t]);
      assert [a[0]] + a[1..] == a;
      assert (NL + PAD + a[0] + Emit(PAD, a[1..])) + t == NL + PAD + a[0] + (Emit(PAD, a[1..]) + t);
    }
  }

  lemma JoinThen(l: string, t: string, rest: string)
    ensures (l + [NEWLINE] + t) + NL + rest == l + [NEWLINE] + (t + NL + rest)
  {
  }

  lemma {:induction false} SplitLinesThen(ls: seq<string>, rest: string)
    requires ls != [] && forall l | l in ls :: OneLine(l)
    ensures Split(Join(ls) + NL + rest) == ls + Split(rest)
  {
    if |ls| == 1 {
      SplitCons(ls[0], rest);
      assert ls == [ls[0]];
    } else {
      var t := Join(ls[1..]);
      SplitLinesThen(ls[1..], rest);
      SplitCons(ls[0], t + NL + rest);
      JoinThen(ls[0], t, rest);
      assert ls == [ls[0]] + ls[1..];
    }
  }

  lemma {:induction false} BlockLinesStop(a: seq<string>, b: seq<string>)
    requires forall l | l in a :: Padded(l)
    requires b != [] && !Padded(b[0])
    ensures BlockLines(a + b) == a
  {
    hide Padded;
    if a == [] {
      assert a + b == b;
    } else {
      BlockLinesStop(a[1..], b);
      assert (a + b)[1..] == a[1..] + b;
      assert a[0] in a;
      assert a == [a[0]] + a[1..];
    }
  }

  lemma {:induction false} IndentOneLine(ls: seq<string>)
    requires forall l | l in ls :: OneLine(l)
    ensures forall l | l in Indent(ls) :: OneLine(l)
  {
    if ls != [] {
      assert ls[0] in ls;
      IndentOneLine(ls[1..]);
    }
  }

  /** A line indented less than the content ends the block. */
  lemma ShallowLineEndsBlock(head: string, rest: string, at: nat)
    requires OneLine(head) && at < |head| && at < |PAD| && head[at] != ' '
    ensures !Padded(Split(head + rest)[0])
  {
    SplitCons(head, "");
    SplitAppend(head, rest);
    var first := Split(head + rest)[0];
    assert first[at] == head[at];
    assert |PAD| <= |first| ==> first[..|PAD|][at] == first[at];
  }

  lemma {:induction false} AnnotationsOneLine(ps: seq<(string, string)>)
    requires forall p | p in ps :: OneLine(p.0) && OneLine(p.1)
    ensures forall l | l in AnnotationLines(ps) :: OneLine(l)
  {
    if ps != [] {
      assert ps[0] in ps;
      AnnotationsOneLine(ps[1..]);
    }
  }

  predicate SingleLineValues(vars: Vars)
  {
    && OneLine(Lookup(vars, "appHostname"))
    && ("IngressAnnotations" in vars && vars["IngressAnnotations"].Pairs? ==>
          forall p | p in vars["IngressAnnotations"].ps :: OneLine(p.0) && OneLine(p.1))
  }

  lemma IngressLines(vars: Vars)
    requires SingleLineValues(vars)
    ensures forall l | l in IngressDetails(vars) :: OneLine(l)
    ensures Split(IngressText(vars)) == ["ingress:"] + IngressDetails(vars)
  {
    if "IngressAnnotations" in vars && vars["IngressAnnotations"].Pairs? {
      AnnotationsOneLine(vars["IngressAnnotations"].ps);
    }
    SplitJoin(["ingress:"] + IngressDetails(vars));
  }

  lemma GluedBlock(v: string, details: seq<string>)
    requires forall l | l in details :: OneLine(l)
    ensures Emit(PAD, Split(v)) + "ingress:" + Emit(PAD, details) ==
            NL + Join(Indent(Split(v + Join(["ingress:"] + details))))
  {
    var merged := Glue(Split(v), ["ingress:"]);
    SplitJoin(["ingress:"] + details);
    SplitAppend(v, Join(["ingress:"] + details));
    assert Glue(Split(v), ["ingress:"] + details) == merged + details;
    EmitGlue(Split(v), "ingress:");
    EmitConcat(merged, details);
    EmitIsJoin(merged + details);
  }

  /** The rendered block is the indentation of the lines of the override text followed by the ingress text. */
  lemma BlockIsIndented(vars: Vars)
    requires SingleLineValues(vars)
    ensures ValuesBlock(vars) == NL + Join(Indent(Split(Lookup(vars, "inLineValues") + IngressText(vars))))
  {
    IngressLines(vars);
    GluedBlock(Lookup(vars, "inLineValues"), IngressDetails(vars));
  }

  lemma ReadBack(content: string, head: string, rest: string, at: nat)
    requires OneLine(head) && at < |head| && at < |PAD| && head[at] != ' '
    ensures ReadBlock(NL + Join(Indent(Split(content))) + NL + (head + rest)) == Some(content)
  {
    var ls := Split(content);
    var document := NL + Join(Indent(ls)) + NL + (head + rest);
    assert document[1..] == Join(Indent(ls)) + NL + (head + rest);
    SplitLines(content);
    IndentOneLine(ls);
    SplitLinesThen(Indent(ls), head + rest);
    ShallowLineEndsBlock(head, rest, at);
    BlockLinesStop(Indent(ls), Split(head + rest));
    DedentIndent(ls);
    JoinSplit(content);
  }

  /** Reading the rendered document back yields exactly the override text followed by the ingress text. */
  lemma ValuesRoundTrip(vars: Vars)
    requires SingleLineValues(vars)
    ensures ReadBlock(Render(vars)[|Header(vars)|..]) == Some(Lookup(vars, "inLineValues") + IngressText(vars))
  {
    BlockIsIndented(vars);
    ReadBack(Lookup(vars, "inLineValues") + IngressText(vars), BLOCK_END, FooterRest(vars), 12);
  }

  /** "ingress:" starts a line of its own exactly when the override text is empty or ends its last line. */
  lemma IngressKeyOnItsOwnLine(vars: Vars)
    requires SingleLineValues(vars)
    ensures var v := Lookup(vars, "inLineValues");
            var ls := Split(v + IngressText(vars));
            var at := |Split(v)| - 1;
            at < |ls| && (ls[at] == "ingress:" <==> v == "" || v[|v| - 1] == NEWLINE)
  {
    var v := Lookup(vars, "inLineValues");
    IngressLines(vars);
    SplitAppend(v, IngressText(vars));
    LastLineEmpty(v);
    var last := Split(v)[|Split(v)| - 1];
    assert |last + "ingress:"| == |last| + |"ingress:"|;
  }

  lemma {:induction false} LastLineEmpty(v: string)
    ensures Split(v)[|Split(v)| - 1] == "" <==> v == "" || v[|v| - 1] == NEWLINE
  {
    if v != "" {
      LastLineEmpty(v[1..]);
      if |v| > 1 {
        assert v[1..][|v[1..]| - 1] == v[|v| - 1];
      }
    }
  }

  // ---- whatever the other values are -----------------------------------------------------

  lemma BlockLinesCons(l: string, ls: seq<string>)
    requires Padded(l)
    ensures BlockLines([l] + ls) == [l] + BlockLines(ls)
  {
    hide Padded;
    assert ([l] + ls)[1..] == ls;
  }

  lemma {:induction false} BlockLinesKeep(a: seq<string>, b: seq<string>)
    requires forall l | l in a :: Padded(l)
    ensures BlockLines(a + b) == a + BlockLines(b)
  {
    hide Padded, BlockLines;
    if a == [] {
      assert a + b == b;
      assert a + BlockLines(b) == BlockLines(b);
    } else {
      assert a[0] in a;
      BlockLinesKeep(a[1..], b);
      BlockLinesCons(a[0], a[1..] + b);
      assert a + b == [a[0]] + (a[1..] + b);
      assert a + BlockLines(b) == [a[0]] + (a[1..] + BlockLines(b));
    }
  }

  lemma {:induction false} DedentAdds(a: seq<string>, b: seq<string>)
    requires (forall l | l in a :: Padded(l)) && (forall l | l in b :: Padded(l))
    ensures forall l | l in a + b :: Padded(l)
    ensures Dedent(a + b) == Dedent(a) + Dedent(b)
  {
    hide Padded;
    if a == [] {
      assert a + b == b;
    } else {
      DedentAdds(a[1..], b);
      assert (a + b)[1..] == a[1..] + b;
    }
  }

  lemma {:induction false} JoinPrefix(a: seq<string>, b: seq<string>)
    requires a != []
    ensures Join(a) <= Join(a + b)
  {
    if |a| == 1 {
      assert a == [a[0]];
      if b == [] {
        assert a + b == a;
      } else {
        assert (a + b)[1..] == b;
      }
    } else {
      JoinPrefix(a[1..], b);
      assert (a + b)[1..] == a[1..] + b;
    }
  }

  lemma ReadStart(content: string, rest: string)
    ensures var r := ReadBlock(NL + Join(Indent(Split(content))) + NL + rest); r.Some? && content <= r.value
  {
    var ls := Indent(Split(content));
    var document := NL + Join(ls) + NL + rest;
    assert document[1..] == Join(ls) + NL + rest;
    SplitLines(content);
    IndentOneLine(Split(content));
    SplitLinesThen(ls, rest);
    BlockLinesKeep(ls, Split(rest));
    DedentAdds(ls, BlockLines(Split(rest)));
    DedentIndent(Split(content));
    JoinSplit(content);
    JoinPrefix(Split(content), Dedent(BlockLines(Split(rest))));
  }

  lemma {:induction false} EmitStart(ls: seq<string>)
    requires ls != []
    ensures Emit(PAD, ls) == NL + (PAD + ls[0] + Emit(PAD, ls[1..]))
  {
    assert NL + PAD + ls[0] == NL + (PAD + ls[0]);
  }

  lemma GluedStart(v: string, details: seq<string>, tail: string)
    requires details != []
    ensures Emit(PAD, Split(v)) + "ingress:" + Emit(PAD, details) + NL + tail ==
            NL + Join(Indent(Split(v + "ingress:"))) + NL + (PAD + details[0] + Emit(PAD, details[1..]) + NL + tail)
  {
    OneLineSplit("ingress:");
    SplitAppend(v, "ingress:");
    EmitGlue(Split(v), "ingress:");
    EmitIsJoin(Split(v + "ingress:"));
    EmitStart(details);
    Regroup(Emit(PAD, Split(v)) + "ingress:", PAD + details[0] + Emit(PAD, details[1..]), tail);
  }

  lemma Regroup(a: string, b: string, tail: string)
    ensures a + (NL + b) + NL + tail == a + NL + (b + NL + tail)
  {
  }

  lemma RenderTail(vars: Vars)
    ensures Render(vars)[|Header(vars)|..] == ValuesBlock(vars) + NL + (BLOCK_END + FooterRest(vars))
  {
    hide Header, ValuesBlock, FooterRest;
  }

  lemma BlockStart(vars: Vars) returns (rest: string)
    ensures Render(vars)[|Header(vars)|..] ==
            NL + Join(Indent(Split(Lookup(vars, "inLineValues") + "ingress:"))) + NL + rest
  {
    hide Render, Header, FooterRest, Emit, Join, Indent, Split, Lookup, IngressDetails;
    var details := IngressDetails(vars);
    DetailsExist(vars);
    RenderTail(vars);
    GluedStart(Lookup(vars, "inLineValues"), details, BLOCK_END + FooterRest(vars));
    rest := PAD + details[0] + Emit(PAD, details[1..]) + NL + (BLOCK_END + FooterRest(vars));
  }

  lemma DetailsExist(vars: Vars)
    ensures IngressDetails(vars) != []
  {
  }

  lemma OneLineSplit(l: string)
    requires OneLine(l)
    ensures Split(l) == [l]
  {
    SplitJoin([l]);
  }

  /** For every value of every variable, the block that is read back starts with the override text, untouched,
      and "ingress:" right behind it. */
  lemma OverridesComeFirst(vars: Vars)
    ensures var r := ReadBlock(Render(vars)[|Header(vars)|..]);
            r.Some? && Lookup(vars, "inLineValues") + "ingress:" <= r.value
  {
    var rest := BlockStart(vars);
    ReadStart(Lookup(vars, "inLineValues") + "ingress:", rest);
  }

  lemma {:induction false} CommasOneLine(ss: seq<string>)
    requires forall s | s in ss :: OneLine(s)
    ensures OneLine(Commas(ss))
  {
    if |ss| > 1 {
      CommasOneLine(ss[1..]);
      assert ss[0] in ss;
      assert Commas(ss) == ss[0] + "," + Commas(ss[1..]);
    } else if |ss| == 1 {
      assert ss[0] in ss;
    }
  }

  /** A resource with an ordinary hostname, name and subnets needs no further condition on its override text. */
  lemma ManifestReadsBack(j: Jira)
    requires OneLine(j.spec.hostname) && OneLine(j.name) && forall s | s in j.spec.network.subnetIds :: OneLine(s)
    ensures ReadBlock(Manifest(j)[|Header(VarsOf(j))|..]) ==
            Some(j.spec.argo.valueOverrides + IngressText(VarsOf(j)))
  {
    hide Render, Header, IngressText, ReadBlock;
    TagsOneLine(j);
    CommasOneLine(j.spec.network.subnetIds);
    AnnotationValues(j);
    ValuesRoundTrip(VarsOf(j));
  }

  lemma TagsOneLine(j: Jira)
    requires OneLine(j.name)
    ensures OneLine(AlbTags(j))
  {
    hide Commas;
    CommasOneLine(["service_name=" + j.name, "Name=" + j.name, "business_unit=WorkplaceTechnology", "resource_owner=mgibson"]);
  }

  lemma FixedKeys()
    ensures OneLine(ALB + "certificate-arn") && OneLine(ALB + "healthcheck-path") && OneLine(ALB + "listen-ports")
    ensures OneLine(ALB + "scheme") && OneLine(ALB + "ssl-policy") && OneLine(ALB + "subnets") && OneLine(ALB + "tags")
    ensures OneLine(ALB + "target-group-attributes") && OneLine(ALB + "target-type")
  {
  }

  lemma ShortValues()
    ensures OneLine("/status") && OneLine("internal") && OneLine("ip") && OneLine("[{\"HTTP\": 80}, {\"HTTPS\": 443}]")
  {
  }

  lemma PolicyValue()
    ensures OneLine("ELBSecurityPolicy-FS-1-2-Res-2020-10")
  {
  }

  lemma HostnameKey()
    ensures OneLine("external-dns.alpha.kubernetes.io/hostname")
  {
  }

  lemma OneLineAdds(a: string, b: string)
    requires OneLine(a) && OneLine(b)
    ensures OneLine(a + b)
  {
  }

  lemma CertificateValue()
    ensures OneLine(CERTIFICATE)
  {
    OneLineAdds("arn:aws:acm:ap-southeast-2:629205377521:", "certificate/");
    OneLineAdds("arn:aws:acm:ap-southeast-2:629205377521:" + "certificate/", "7d398889-d2ed-42e4-94e7-16fded6498f1");
  }

  lemma StickinessValue()
    ensures OneLine(STICKINESS)
  {
    OneLineAdds("stickiness.enabled=true,", "stickiness.lb_cookie.duration_seconds=43200");
  }

  lemma AnnotationValues(j: Jira)
    requires OneLine(j.spec.hostname) && OneLine(AlbTags(j)) && OneLine(Commas(j.spec.network.subnetIds))
    ensures forall p | p in Annotations(j) :: OneLine(p.0) && OneLine(p.1)
  {
    hide AlbTags, Commas, OneLine;
    FixedKeys();
    ShortValues();
    PolicyValue();
    HostnameKey();
    CertificateValue();
    StickinessValue();
  }

  // ---- automatic detection of the indentation (section 8.1.1.1 of YAML 1.2.2) -----------

  function LeadingSpaces(l: string): (n: nat)
    ensures n <= |l|
  {
    if l == "" || l[0] != ' ' then 0 else 1 + LeadingSpaces(l[1..])
  }

  /** A line of nothing but spaces: an empty line as far as the detection is concerned. */
  predicate Blank(l: string)
  {
    LeadingSpaces(l) == |l|
  }

  /** The number of blank lines in front of the first line that is not blank. */
  function LeadingBlanks(ls: seq<string>): (n: nat)
    ensures n <= |ls|
    ensures n < |ls| ==> !Blank(ls[n])
    ensures forall i | 0 <= i < n :: Blank(ls[i])
  {
    if ls == [] || !Blank(ls[0]) then 0 else 1 + LeadingBlanks(ls[1..])
  }

  /** "values:" itself is indented by twelve spaces; the content of its scalar must be indented further. */
  const PARENT_INDENT: nat := 12

  /** The lines of a block whose content is indented by n, without that indentation. A blank line may be shorter. */
  function DetectedLines(ls: seq<string>, n: nat): (r: seq<string>)
    ensures |r| <= |ls|
  {
    if ls == [] || !(Blank(ls[0]) || n <= LeadingSpaces(ls[0])) then []
    else [if |ls[0]| <= n then "" else ls[0][n..]] + DetectedLines(ls[1..], n)
  }

  /** The default chomping drops the empty lines at the end. */
  function Chomp(ls: seq<string>): (r: seq<string>)
    ensures r <= ls
  {
    if ls == [] || ls[|ls| - 1] != "" then ls else Chomp(ls[..|ls| - 1])
  }

  /** The value of the lines after "values: |", up to its final line break, for a reader that takes the
      indentation from the first line that is not blank. A longer blank line in front of that line is an error. */
  function DetectedValue(ls: seq<string>): Option<string>
  {
    var k := LeadingBlanks(ls);
    if k == |ls| || LeadingSpaces(ls[k]) <= PARENT_INDENT then Some("")
    else if exists i :: 0 <= i < k && |ls[i]| > LeadingSpaces(ls[k]) then None
    else
      var r := Chomp(DetectedLines(ls, LeadingSpaces(ls[k])));
      if r == [] then Some("") else Some(Join(r))
  }

  function ReadDetected(document: string): Option<string>
  {
    if document == "" || document[0] != NEWLINE then None else DetectedValue(Split(document[1..]))
  }

  lemma {:induction false} LeadingSpacesPlus(n: nat, pad: string, l: string)
    requires |pad| == n && forall i | 0 <= i < n :: pad[i] == ' '
    ensures LeadingSpaces(pad + l) == n + LeadingSpaces(l)
  {
    if n == 0 {
      assert pad + l == l;
    } else {
      assert (pad + l)[1..] == pad[1..] + l;
      LeadingSpacesPlus(n - 1, pad[1..], l);
    }
  }

  lemma PaddedLine(l: string)
    ensures LeadingSpaces(PAD + l) == |PAD| + LeadingSpaces(l) && |PAD| == 16
    ensures Blank(PAD + l) <==> Blank(l)
    ensures (PAD + l)[|PAD|..] == l
  {
    LeadingSpacesPlus(|PAD|, PAD, l);
  }

  lemma {:induction false} IndentAt(ls: seq<string>, i: nat)
    requires i < |ls|
    ensures Indent(ls)[i] == PAD + ls[i]
  {
    if i > 0 {
      IndentAt(ls[1..], i - 1);
    }
  }

  /** Indenting all lines leaves the first line that is not blank where it is. */
  lemma {:induction false} BlanksOfIndented(ls: seq<string>, tail: seq<string>)
    requires LeadingBlanks(ls) < |ls|
    ensures LeadingBlanks(Indent(ls) + tail) == LeadingBlanks(ls)
  {
    var all := Indent(ls) + tail;
    IndentAt(ls, 0);
    PaddedLine(ls[0]);
    if Blank(ls[0]) {
      BlanksOfIndented(ls[1..], tail);
      assert all[1..] == Indent(ls[1..]) + tail;
    }
  }

  /** With the template's own indentation every line comes back. */
  lemma {:induction false} LinesComeBack(ls: seq<string>, tail: seq<string>)
    requires tail != [] && !Blank(tail[0]) && LeadingSpaces(tail[0]) < |PAD|
    ensures DetectedLines(Indent(ls) + tail, |PAD|) == ls
  {
    var all := Indent(ls) + tail;
    if ls == [] {
      assert all == tail;
    } else {
      IndentAt(ls, 0);
      PaddedLine(ls[0]);
      LinesComeBack(ls[1..], tail);
      assert all[1..] == Indent(ls[1..]) + tail;
      assert ls == [ls[0]] + ls[1..];
    }
  }

  /** With any indentation the lines up to the first one that is not blank are part of the block, and that one
      loses as much as was detected. */
  lemma {:induction false} FirstLineStripped(ls: seq<string>, n: nat)
    requires LeadingBlanks(ls) < |ls| && LeadingSpaces(ls[LeadingBlanks(ls)]) == n
    ensures var k := LeadingBlanks(ls);
            |DetectedLines(ls, n)| > k && DetectedLines(ls, n)[k] == ls[k][n..] != ""
  {
    if Blank(ls[0]) {
      FirstLineStripped(ls[1..], n);
    }
  }

  lemma {:induction false} DetectedOneLine(ls: seq<string>, n: nat)
    requires forall l | l in ls :: OneLine(l)
    ensures forall l | l in DetectedLines(ls, n) :: OneLine(l)
  {
    if ls != [] && (Blank(ls[0]) || n <= LeadingSpaces(ls[0])) {
      assert ls[0] in ls;
      DetectedOneLine(ls[1..], n);
    }
  }

  lemma {:induction false} ChompKeeps(ls: seq<string>, k: nat)
    requires k < |ls| && ls[k] != ""
    ensures |Chomp(ls)| > k && Chomp(ls)[k] == ls[k]
  {
    if ls[|ls| - 1] == "" {
      ChompKeeps(ls[..|ls| - 1], k);
    }
  }

  /** The text begins where the detection looks: blank lines in front carry no spaces, and the first other
      line is not indented. */
  predicate StartsFlush(ls: seq<string>)
  {
    var k := LeadingBlanks(ls);
    k < |ls| && LeadingSpaces(ls[k]) == 0 && forall i | 0 <= i < k :: ls[i] == ""
  }

  /** The first line that is not blank is indented, or a blank line in front of it is longer than its indentation. */
  predicate OverIndented(ls: seq<string>)
  {
    var k := LeadingBlanks(ls);
    k < |ls| && exists i :: 0 <= i < k && |ls[i]| > LeadingSpaces(ls[k])
  }

  /** Lines that were indented by the template and are followed by a shallower line. */
  lemma ValueOfIndented(text: string, tail: seq<string>)
    requires LeadingBlanks(Split(text)) < |Split(text)| && Split(text)[|Split(text)| - 1] != ""
    requires tail != [] && !Blank(tail[0]) && LeadingSpaces(tail[0]) < |PAD|
    requires forall l | l in Indent(Split(text)) + tail :: OneLine(l)
    ensures DetectedValue(Indent(Split(text)) + tail) == Some(text) <==> StartsFlush(Split(text))
    ensures DetectedValue(Indent(Split(text)) + tail) == None <==> OverIndented(Split(text))
  {
    hide Split, Indent, Join, Blank, OneLine, Chomp, DetectedLines, LeadingSpaces;
    var ls := Split(text);
    var all := Indent(ls) + tail;
    var k := LeadingBlanks(ls);
    BlanksOfIndented(ls, tail);
    BlanksIndented(ls, tail, k);
    JoinSplit(text);
    if LeadingSpaces(ls[k]) > 0 {
      IndentedFirstLine(text, all, k);
    } else if StartsFlush(ls) {
      LinesComeBack(ls, tail);
      ChompKeeps(ls, |ls| - 1);
      assert Chomp(ls) == ls;
      assert forall i | 0 <= i < k :: |all[i]| == LeadingSpaces(all[k]) && |ls[i]| == 0;
      assert DetectedLines(all, LeadingSpaces(all[k])) == ls;
    } else {
      var i :| 0 <= i < k && ls[i] != "";
      assert |all[i]| > LeadingSpaces(all[k]);
    }
  }

  lemma DocumentLines(text: string, head: string, rest: string)
    ensures var document := NL + Join(Indent(Split(text))) + NL + (head + rest);
            document[1..] == Join(Indent(Split(text))) + NL + (head + rest)
            && Split(document[1..]) == Indent(Split(text)) + Split(head + rest)
    ensures forall l | l in Indent(Split(text)) + Split(head + rest) :: OneLine(l)
  {
    var ls := Split(text);
    var document := NL + Join(Indent(ls)) + NL + (head + rest);
    assert document[1..] == Join(Indent(ls)) + NL + (head + rest);
    SplitLines(text);
    SplitLines(head + rest);
    IndentOneLine(ls);
    SplitLinesThen(Indent(ls), head + rest);
  }

  lemma DetectedReadBack(text: string, head: string, rest: string)
    requires LeadingBlanks(Split(text)) < |Split(text)| && Split(text)[|Split(text)| - 1] != ""
    requires OneLine(head) && LeadingSpaces(head) == PARENT_INDENT < |head|
    ensures var v := ReadDetected(NL + Join(Indent(Split(text))) + NL + (head + rest));
            (v == Some(text) <==> StartsFlush(Split(text))) && (v == None <==> OverIndented(Split(text)))
  {
    hide Split, Indent, Join, DetectedValue, StartsFlush, OverIndented, Blank;
    DocumentLines(text, head, rest);
    TailIsShallow(head, rest);
    PaddedLine("");
    ValueOfIndented(text, Split(head + rest));
  }

  lemma TailIsShallow(head: string, rest: string)
    requires OneLine(head) && LeadingSpaces(head) == PARENT_INDENT < |head|
    ensures var l := Split(head + rest)[0]; !Blank(l) && LeadingSpaces(l) == PARENT_INDENT
  {
    SplitCons(head, "");
    SplitAppend(head, rest);
    SpacesStop(head, Split(rest)[0]);
  }

  lemma {:induction false} SpacesStop(a: string, b: string)
    requires LeadingSpaces(a) < |a|
    ensures LeadingSpaces(a + b) == LeadingSpaces(a)
  {
    assert (a + b)[0] == a[0];
    if a[0] == ' ' {
      assert (a + b)[1..] == a[1..] + b;
      SpacesStop(a[1..], b);
    }
  }

  /** What the detection sees of indented lines. */
  lemma BlanksIndented(ls: seq<string>, tail: seq<string>, k: nat)
    requires k == LeadingBlanks(ls) < |ls|
    ensures var all := Indent(ls) + tail;
            && LeadingSpaces(all[k]) == |PAD| + LeadingSpaces(ls[k]) && all[k] == PAD + ls[k]
            && forall i | 0 <= i < k :: |all[i]| == |PAD| + |ls[i]|
  {
    IndentAt(ls, k);
    PaddedLine(ls[k]);
    forall i | 0 <= i < k
      ensures |(Indent(ls) + tail)[i]| == |PAD| + |ls[i]|
    {
      IndentAt(ls, i);
    }
  }

  /** An indented first line comes back shorter, or not at all. */
  lemma IndentedFirstLine(text: string, all: seq<string>, k: nat)
    requires k < |Split(text)| && k < |all| && LeadingBlanks(all) == k && all[k] == PAD + Split(text)[k]
    requires LeadingSpaces(all[k]) > |PAD| && forall l | l in all :: OneLine(l)
    ensures var r := Chomp(DetectedLines(all, LeadingSpaces(all[k]))); r != [] && Join(r) != text
  {
    var n := LeadingSpaces(all[k]);
    var lines := DetectedLines(all, n);
    var r := Chomp(lines);
    FirstLineStripped(all, n);
    ChompKeeps(lines, k);
    DetectedOneLine(all, n);
    forall l | l in r
      ensures OneLine(l)
    {
      assert l in lines;
    }
    SplitJoin(r);
    assert |r[k]| < |Split(text)[k]|;
  }

  lemma IngressLast(vars: Vars)
    ensures var d := IngressDetails(vars); d != [] && d[|d| - 1] != ""
  {
    if "IngressAnnotations" in vars && vars["IngressAnnotations"].Pairs? && vars["IngressAnnotations"].ps != [] {
      LastAnnotation(vars["IngressAnnotations"].ps);
    }
  }

  lemma {:induction false} LastAnnotation(ps: seq<(string, string)>)
    requires ps != []
    ensures AnnotationLines(ps)[|ps| - 1] != ""
  {
    if |ps| > 1 {
      LastAnnotation(ps[1..]);
    }
  }

  /** The text of the block ends in a line of the ingress details, and some line of it is not blank. */
  lemma TextOfBlock(vars: Vars)
    requires SingleLineValues(vars)
    ensures var ls := Split(Lookup(vars, "inLineValues") + IngressText(vars));
            ls[|ls| - 1] != "" && LeadingBlanks(ls) < |ls|
  {
    hide IngressDetails;
    var v := Lookup(vars, "inLineValues");
    var ls := Split(v + IngressText(vars));
    IngressLines(vars);
    IngressLast(vars);
    SplitAppend(v, IngressText(vars));
    var at := |Split(v)| - 1;
    assert ls[at] == Split(v)[at] + "ingress:";
    NotBlank(Split(v)[at], "ingress:");
  }

  lemma {:induction false} NotBlank(a: string, b: string)
    requires b != "" && b[0] != ' '
    ensures !Blank(a + b)
  {
    if a == "" {
      assert a + b == b;
    } else {
      assert (a + b)[1..] == a[1..] + b;
      NotBlank(a[1..], b);
    }
  }

  /** A reader that detects the indentation returns the override text followed by the ingress text if and only
      if the blank lines in front carry no spaces and the first other line is not indented. It fails if and only
      if such a blank line has more spaces than that first line. */
  lemma DetectionAgrees(vars: Vars)
    requires SingleLineValues(vars)
    ensures var text := Lookup(vars, "inLineValues") + IngressText(vars);
            var v := ReadDetected(Render(vars)[|Header(vars)|..]);
            (v == Some(text) <==> StartsFlush(Split(text))) && (v == None <==> OverIndented(Split(text)))
  {
    hide IngressText, IngressDetails, FooterRest, Header, Lookup, StartsFlush, OverIndented, ReadDetected, Render, ValuesBlock, Split, Join, Indent;
    var text := Lookup(vars, "inLineValues") + IngressText(vars);
    BlockIsIndented(vars);
    TextOfBlock(vars);
    RenderTail(vars);
    BlockEndIndent();
    DetectedReadBack(text, BLOCK_END, FooterRest(vars));
  }

  lemma BlockEndIndent()
    ensures OneLine(BLOCK_END) && LeadingSpaces(BLOCK_END) == PARENT_INDENT < |BLOCK_END|
  {
    hide LeadingSpaces;
    KeyIsFlush();
    TwelveSpaces();
    LeadingSpacesPlus(12, "            ", "valueFiles:");
  }

  lemma TwelveSpaces()
    ensures |"            "| == 12 && (forall i | 0 <= i < 12 :: "            "[i] == ' ')
    ensures BLOCK_END == "            " + "valueFiles:"
  {
  }

  lemma KeyIsFlush()
    ensures LeadingSpaces("valueFiles:") == 0
  {
  }

  /** An override text that begins with a line of two spaces cannot be read: it is longer than the indentation
      of the line after it, although that line is not indented. */
  lemma SpacesInFrontAreAnError(vars: Vars)
    requires SingleLineValues(vars) && Lookup(vars, "inLineValues") == "  \nfoo: 1\n"
    ensures var ls := Split(Lookup(vars, "inLineValues") + IngressText(vars));
            && LeadingBlanks(ls) == 1 < |ls| && LeadingSpaces(ls[1]) == 0
            && ReadDetected(Render(vars)[|Header(vars)|..]) == None
  {
    hide IngressText, ReadDetected, Render, Header, Split, Lookup;
    var more := IngressText(vars);
    var text := Lookup(vars, "inLineValues") + more;
    assert text == "  " + [NEWLINE] + ("foo: 1" + [NEWLINE] + more);
    SplitCons("  ", "foo: 1" + [NEWLINE] + more);
    SplitCons("foo: 1", more);
    TwoBlanks(Split(more));
    DetectionAgrees(vars);
  }

  lemma TwoBlanks(rest: seq<string>)
    ensures var ls := ["  "] + (["foo: 1"] + rest); LeadingBlanks(ls) == 1 && LeadingSpaces(ls[1]) == 0 && OverIndented(ls)
  {
    var ls := ["  "] + (["foo: 1"] + rest);
    assert ls[1..] == ["foo: 1"] + rest;
    assert LeadingSpaces("  ") == 2;
    assert |ls[0]| > LeadingSpaces(ls[1]);
  }
}
