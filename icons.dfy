/**
 * The icon-name scanner of the icon generator: the names given as
 * `icon: NAME` in the node metadata of `@diagram` code blocks, and the
 * description of each name used in the image prompt.
 */
module Icons {
  import opened Wrappers
  import opened Strings

  const DiagramOpener: string := "```@diagram"
  const CodeFence: string := "```"
  const IconKey: string := "icon:"
  const SpacedIconKey: string := "icon :"

  /** `str::strip_prefix`. */
  function StripPrefix(s: string, prefix: string): (r: Option<string>)
    ensures r.Some? <==> StartsWith(s, prefix)
    ensures r.Some? ==> s == prefix + r.value
  {
    if StartsWith(s, prefix) then Some(s[|prefix|..]) else None
  }

  /** The sets one after another, joined. */
  function Union<T>(ss: seq<set<T>>): set<T>
  {
    if |ss| == 0 then {} else Union(ss[..|ss| - 1]) + ss[|ss| - 1]
  }

  /** An element of the union lies in one of the sets, and each set is in the union. */
  lemma {:induction false} UnionIff<T>(ss: seq<set<T>>, x: T)
    ensures x in Union(ss) <==> exists j :: 0 <= j < |ss| && x in ss[j]
  {
    if |ss| > 0 {
      var init := ss[..|ss| - 1];
      UnionIff(init, x);
      if x in Union(init) {
        var j :| 0 <= j < |init| && x in init[j];
        assert x in ss[j];
      }
      if exists j :: 0 <= j < |ss| && x in ss[j] {
        var j :| 0 <= j < |ss| && x in ss[j];
        if j < |init| {
          assert x in init[j];
        }
      }
    }
  }

  /** Extending the sets by one adds that set to the union. */
  lemma UnionStep<T>(ss: seq<set<T>>, k: nat)
    requires k < |ss|
    ensures Union(ss[..k + 1]) == Union(ss[..k]) + ss[k]
  {
    assert ss[..k + 1][..k] == ss[..k];
  }

  // ---------------------------------------------------------------------
  // One line
  // ---------------------------------------------------------------------

  /** The icon a comma-separated metadata part names: the trimmed value after `icon:` or `icon :`, if non-empty. */
  function IconOf(part: string): (r: Option<string>)
    ensures r.Some? ==> r.value != "" && Trim(r.value) == r.value
  {
    var p := Trim(part);
    var val := match StripPrefix(p, IconKey)
      case Some(v) => Some(v)
      case None => StripPrefix(p, SpacedIconKey);
    match val
    case None => None
    case Some(v) =>
      var icon := Trim(v);
      TrimTwice(v);
      if icon != "" then Some(icon) else None
  }

  /** The icons a part names: none or one. */
  function PartIcon(part: string): set<string>
  {
    match IconOf(part)
    case Some(icon) => {icon}
    case None => {}
  }

  /** The icons the parts name. */
  function PartIcons(parts: seq<string>): set<string>
  {
    Union(seq(|parts|, n requires 0 <= n < |parts| => PartIcon(parts[n])))
  }

  /** The metadata of a trimmed line ending with `)`: the text after its last `(` and before the final `)`. */
  function Meta(trimmed: string): (r: Option<string>)
    ensures r.Some? ==> EndsWith(trimmed, ")") && '(' in trimmed
  {
    match LastIndexOf(trimmed, '(')
    case None => None
    case Some(p) =>
      if EndsWith(trimmed, ")") then Some(trimmed[p + 1..|trimmed| - 1]) else None
  }

  /** The icons a trimmed line inside a diagram names. */
  function LineIcons(trimmed: string): set<string>
  {
    match Meta(trimmed)
    case None => {}
    case Some(meta) => PartIcons(Split(meta, ','))
  }

  /** Every icon the parts name is non-empty and trimmed. */
  lemma PartIconsTrimmed(parts: seq<string>, icon: string)
    requires icon in PartIcons(parts)
    ensures icon != "" && Trim(icon) == icon
  {
    var ss := seq(|parts|, n requires 0 <= n < |parts| => PartIcon(parts[n]));
    UnionIff(ss, icon);
    var n :| 0 <= n < |ss| && icon in ss[n];
    assert icon in PartIcon(parts[n]);
  }

  /** Every icon a line names is non-empty and trimmed. */
  lemma LineIconsTrimmed(trimmed: string, icon: string)
    requires icon in LineIcons(trimmed)
    ensures icon != "" && Trim(icon) == icon
  {
    PartIconsTrimmed(Split(Meta(trimmed).value, ','), icon);
  }

  lemma StripPrefixOfConcat(prefix: string, rest: string)
    ensures StripPrefix(prefix + rest, prefix) == Some(rest)
  {
    assert (prefix + rest)[..|prefix|] == prefix;
  }

  /** A part `icon: NAME` names the icon `NAME`. */
  lemma IconPart(name: string)
    requires name != "" && Trim(name) == name
    ensures IconOf("icon: " + name) == Some(name)
  {
    var part := IconKey + (" " + name);
    assert part == "icon: " + name;
    assert Trim(part) == part by {
      assert part[0] == 'i' && part[|part| - 1] == name[|name| - 1];
      TrimOfTrimmed(part);
    }
    StripPrefixOfConcat(IconKey, " " + name);
    assert Trim(" " + name) == name by {
      assert TrimStart(" " + name) == TrimStart(name);
      TrimOfTrimmed(name);
    }
  }

  /** A part `icon :NAME` names the icon `NAME`. */
  lemma SpacedIconPart(name: string)
    requires name != "" && Trim(name) == name
    ensures IconOf("icon :" + name) == Some(name)
  {
    var part := SpacedIconKey + name;
    assert part == "icon :" + name;
    assert Trim(part) == part by {
      assert part[0] == 'i' && part[|part| - 1] == name[|name| - 1];
      TrimOfTrimmed(part);
    }
    assert StripPrefix(part, IconKey) == None by {
      assert part[4] == ' ';
    }
    StripPrefixOfConcat(SpacedIconKey, name);
  }

  // ---------------------------------------------------------------------
  // The whole text
  // ---------------------------------------------------------------------

  /** How the scan treats a trimmed line. */
  datatype LineKind = Opener | Fence | Other

  /** A trimmed line opens a diagram block, closes a code block, or is anything else. */
  function KindOf(trimmed: string): LineKind
  {
    if StartsWith(trimmed, DiagramOpener) then Opener
    else if StartsWith(trimmed, CodeFence) then Fence
    else Other
  }

  /** Whether the scan is inside a diagram once a line of the given kind has been looked at. */
  function NextInDiagram(inDiagram: bool, kind: LineKind): bool
  {
    if kind == Opener then true
    else if inDiagram && kind == Fence then false
    else inDiagram
  }

  /** Whether the scan is inside a diagram before the `k`-th of the line kinds. */
  function InDiagramOf(kinds: seq<LineKind>, k: nat): bool
    requires k <= |kinds|
  {
    if k == 0 then false else NextInDiagram(InDiagramOf(kinds, k - 1), kinds[k - 1])
  }

  /** The kinds of the trimmed lines. */
  function Kinds(lines: seq<string>): (kinds: seq<LineKind>)
    ensures |kinds| == |lines|
  {
    seq(|lines|, j requires 0 <= j < |lines| => KindOf(Trim(lines[j])))
  }

  /** Line `j` is searched for icons: the scan is inside a diagram and the line neither opens nor closes a block. */
  predicate Scanned(lines: seq<string>, j: nat)
    requires j < |lines|
  {
    InDiagramOf(Kinds(lines), j) && Kinds(lines)[j] == Other
  }

  /** The icons each line contributes. */
  function Found(lines: seq<string>): (found: seq<set<string>>)
    ensures |found| == |lines|
  {
    seq(|lines|, j requires 0 <= j < |lines| => if Scanned(lines, j) then LineIcons(Trim(lines[j])) else {})
  }

  /** The icons the lines name inside diagrams. */
  function LinesIcons(lines: seq<string>): set<string>
  {
    Union(Found(lines))
  }

  /** What `collect_diagram_icons` returns for a text. */
  function DiagramIcons(content: string): set<string>
  {
    LinesIcons(Lines(content))
  }

  /** The scan after the first `k` lines. */
  predicate ScannedUpTo(lines: seq<string>, k: nat, inDiagram: bool, icons: set<string>)
  {
    && k <= |lines|
    && inDiagram == InDiagramOf(Kinds(lines), k)
    && icons == Union(Found(lines)[..k])
  }

  /** `collect_diagram_icons`. */
  method CollectDiagramIcons(content: string) returns (icons: set<string>)
    ensures icons == DiagramIcons(content)
  {
    var lines := Lines(content);
    icons := {};
    var inDiagram := false;
    for k := 0 to |lines|
      invariant ScannedUpTo(lines, k, inDiagram, icons)
    {
      inDiagram, icons := ScanLine(lines, k, inDiagram, icons);
    }
    assert Found(lines)[..|lines|] == Found(lines);
  }

  /** The body of the loop of `collect_diagram_icons`. */
  method ScanLine(lines: seq<string>, k: nat, inDiagram: bool, icons: set<string>)
    returns (inDiagram': bool, icons': set<string>)
    requires k < |lines| && ScannedUpTo(lines, k, inDiagram, icons)
    ensures ScannedUpTo(lines, k + 1, inDiagram', icons')
  {
    var trimmed := Trim(lines[k]);
    assert Kinds(lines)[k] == KindOf(trimmed);
    assert Found(lines)[k] == if Scanned(lines, k) then LineIcons(trimmed) else {};
    UnionStep(Found(lines), k);
    inDiagram', icons' := inDiagram, icons;
    if StartsWith(trimmed, DiagramOpener) {
      inDiagram' := true;
      return;
    }
    if inDiagram && StartsWith(trimmed, CodeFence) {
      inDiagram' := false;
      return;
    }
    if !inDiagram {
      return;
    }
    icons' := AddLineIcons(trimmed, icons);
  }

  /** The icons of one line inside a diagram added to the set. */
  method AddLineIcons(trimmed: string, icons: set<string>) returns (icons': set<string>)
    ensures icons' == icons + LineIcons(trimmed)
  {
    icons' := icons;
    var parenStart := LastIndexOf(trimmed, '(');
    if parenStart.Some? && EndsWith(trimmed, ")") {
      var meta := trimmed[parenStart.value + 1..|trimmed| - 1];
      assert Meta(trimmed) == Some(meta);
      var parts := Split(meta, ',');
      ghost var ss := seq(|parts|, n requires 0 <= n < |parts| => PartIcon(parts[n]));
      for n := 0 to |parts|
        invariant icons' == icons + Union(ss[..n])
      {
        UnionStep(ss, n);
        icons' := AddPartIcon(parts[n], icons');
      }
      assert ss[..|parts|] == ss;
    }
  }

  /** The icon of one metadata part added to the set. */
  method AddPartIcon(part: string, icons: set<string>) returns (icons': set<string>)
    ensures icons' == icons + PartIcon(part)
  {
    icons' := icons;
    var trimmed := Trim(part);
    var val := StripPrefix(trimmed, IconKey);
    if val.None? {
      val := StripPrefix(trimmed, SpacedIconKey);
    }
    if val.Some? {
      var icon := Trim(val.value);
      if icon != "" {
        icons' := icons' + {icon};
      }
    }
  }

  // ---------------------------------------------------------------------
  // Properties
  // ---------------------------------------------------------------------

  /**
   * The scan is inside a diagram before line `k` exactly when some earlier
   * line opens a diagram and no line after it, up to `k`, closes a block.
   */
  lemma {:induction false} InDiagramIff(kinds: seq<LineKind>, k: nat)
    requires k <= |kinds|
    ensures InDiagramOf(kinds, k) <==>
      exists o :: 0 <= o < k && kinds[o] == Opener && forall j :: o < j < k ==> kinds[j] != Fence
  {
    if k > 0 {
      InDiagramIff(kinds, k - 1);
      var last := kinds[k - 1];
      if last == Opener {
        assert 0 <= k - 1 < k && kinds[k - 1] == Opener;
      } else if last == Fence {
        forall o | 0 <= o < k && kinds[o] == Opener
          ensures exists j :: o < j < k && kinds[j] == Fence
        {
          assert o < k - 1 < k && kinds[k - 1] == Fence;
        }
      } else {
        if exists o :: 0 <= o < k && kinds[o] == Opener && forall j :: o < j < k ==> kinds[j] != Fence {
          var o :| 0 <= o < k && kinds[o] == Opener && forall j :: o < j < k ==> kinds[j] != Fence;
          assert forall j :: o < j < k - 1 ==> kinds[j] != Fence;
        }
      }
    }
  }

  /** Every collected icon is named by a line searched for icons. */
  lemma LinesIconsFrom(lines: seq<string>, icon: string)
    requires icon in LinesIcons(lines)
    ensures exists j :: 0 <= j < |lines| && Scanned(lines, j) && icon in LineIcons(Trim(lines[j]))
  {
    UnionIff(Found(lines), icon);
    var j :| 0 <= j < |lines| && icon in Found(lines)[j];
    assert Scanned(lines, j) && icon in LineIcons(Trim(lines[j]));
  }

  /** Every icon a line searched for icons names is collected. */
  lemma LinesIconsInclude(lines: seq<string>, j: nat)
    requires j < |lines| && Scanned(lines, j)
    ensures LineIcons(Trim(lines[j])) <= LinesIcons(lines)
  {
    forall icon | icon in LineIcons(Trim(lines[j]))
      ensures icon in LinesIcons(lines)
    {
      assert icon in Found(lines)[j];
      UnionIff(Found(lines), icon);
    }
  }

  /** Every collected icon is non-empty and trimmed. */
  lemma LinesIconsTrimmed(lines: seq<string>, icon: string)
    requires icon in LinesIcons(lines)
    ensures icon != "" && Trim(icon) == icon
  {
    LinesIconsFrom(lines, icon);
    var j :| 0 <= j < |lines| && Scanned(lines, j) && icon in LineIcons(Trim(lines[j]));
    LineIconsTrimmed(Trim(lines[j]), icon);
  }

  /** Without a line opening a diagram the scan is never inside one. */
  lemma {:induction false} NeverInDiagram(kinds: seq<LineKind>, k: nat)
    requires k <= |kinds|
    requires forall i :: 0 <= i < |kinds| ==> kinds[i] != Opener
    ensures !InDiagramOf(kinds, k)
  {
    if k > 0 {
      NeverInDiagram(kinds, k - 1);
    }
  }

  /** The union of empty sets is empty. */
  lemma {:induction false} UnionOfEmpty<T>(ss: seq<set<T>>)
    requires forall j :: 0 <= j < |ss| ==> ss[j] == {}
    ensures Union(ss) == {}
  {
    if |ss| > 0 {
      UnionOfEmpty(ss[..|ss| - 1]);
    }
  }

  /** Lines none of which opens a diagram name no icons. */
  lemma NoDiagramNoIcons(lines: seq<string>)
    requires forall i :: 0 <= i < |lines| ==> !StartsWith(Trim(lines[i]), DiagramOpener)
    ensures LinesIcons(lines) == {}
  {
    var kinds := Kinds(lines);
    assert forall i :: 0 <= i < |kinds| ==> kinds[i] != Opener by {
      forall i | 0 <= i < |kinds|
        ensures kinds[i] != Opener
      {
        assert kinds[i] == KindOf(Trim(lines[i]));
      }
    }
    forall j | 0 <= j < |lines|
      ensures Found(lines)[j] == {}
    {
      NeverInDiagram(kinds, j);
    }
    UnionOfEmpty(Found(lines));
  }

  // ---------------------------------------------------------------------
  // Descriptions
  // ---------------------------------------------------------------------

  /** The icon names with a description of their own. */
  const KnownNames: set<string> := {
    "user", "server", "database", "db", "cloud", "lock", "auth", "api", "gateway", "cache",
    "container", "browser", "web", "mobile", "phone", "queue", "storage", "function", "lambda",
    "network", "lb", "key", "mail", "email", "logs", "logging", "monitor", "monitoring"}

  // The descriptions, one per kind of icon.
  const UserText: string := "person/user (head and shoulders silhouette)"
  const ServerText: string := "server rack or server computer"
  const DatabaseText: string := "database (cylinder shape)"
  const CloudText: string := "cloud computing / cloud service"
  const LockText: string := "security lock / padlock"
  const ApiText: string := "API gateway (hexagonal shape)"
  const CacheText: string := "cache / lightning bolt for speed"
  const ContainerText: string := "container / Docker container (box within box)"
  const BrowserText: string := "web browser window"
  const MobileText: string := "mobile phone / smartphone"
  const QueueText: string := "message queue"
  const StorageText: string := "file storage / disk"
  const FunctionText: string := "serverless function / lambda"
  const NetworkText: string := "network / load balancer"
  const KeyText: string := "encryption key"
  const MailText: string := "email envelope"
  const LogsText: string := "log file / document with lines"
  const MonitorText: string := "monitoring dashboard / metrics display"

  /** `icon_name_to_description`: a known name is described, any other name stands for itself. */
  function Description(name: string): string
  {
    match name
    case "user" => UserText
    case "server" => ServerText
    case "database" => DatabaseText
    case "db" => DatabaseText
    case "cloud" => CloudText
    case "lock" => LockText
    case "auth" => LockText
    case "api" => ApiText
    case "gateway" => ApiText
    case "cache" => CacheText
    case "container" => ContainerText
    case "browser" => BrowserText
    case "web" => BrowserText
    case "mobile" => MobileText
    case "phone" => MobileText
    case "queue" => QueueText
    case "storage" => StorageText
    case "function" => FunctionText
    case "lambda" => FunctionText
    case "network" => NetworkText
    case "lb" => NetworkText
    case "key" => KeyText
    case "mail" => MailText
    case "email" => MailText
    case "logs" => LogsText
    case "logging" => LogsText
    case "monitor" => MonitorText
    case "monitoring" => MonitorText
    case _ => name
  }

  /** `db` is an alias of `database`. */
  lemma DbAlias()
    ensures Description("db") == Description("database")
  {
  }

  /** `auth` is an alias of `lock`. */
  lemma AuthAlias()
    ensures Description("auth") == Description("lock")
  {
  }

  /** `gateway` is an alias of `api`. */
  lemma GatewayAlias()
    ensures Description("gateway") == Description("api")
  {
  }

  /** `web` is an alias of `browser`. */
  lemma WebAlias()
    ensures Description("web") == Description("browser")
  {
  }

  /** `phone` is an alias of `mobile`. */
  lemma PhoneAlias()
    ensures Description("phone") == Description("mobile")
  {
  }

  /** `lambda` is an alias of `function`. */
  lemma LambdaAlias()
    ensures Description("lambda") == Description("function")
  {
  }

  /** `lb` is an alias of `network`. */
  lemma LbAlias()
    ensures Description("lb") == Description("network")
  {
  }

  /** `email` is an alias of `mail`. */
  lemma EmailAlias()
    ensures Description("email") == Description("mail")
  {
  }

  /** `logging` is an alias of `logs`. */
  lemma LoggingAlias()
    ensures Description("logging") == Description("logs")
  {
  }

  /** `monitoring` is an alias of `monitor`. */
  lemma MonitoringAlias()
    ensures Description("monitoring") == Description("monitor")
  {
  }

  /** A name without a description of its own is returned as it is, and only such a name. */
  lemma UnknownNamesKept(name: string)
    ensures Description(name) == name <==> name !in KnownNames
  {
  }

  /** The description of `user` speaks of a person. */
  lemma UserDescription()
    ensures Description("user")[..6] == "person"
  {
    assert Description("user") == UserText;
    assert UserText == "person" + UserText[6..];
  }

  /** The description of `database` speaks of a cylinder. */
  lemma DatabaseDescription()
    ensures Description("database")[10..18] == "cylinder"
  {
    assert Description("database") == DatabaseText;
    assert DatabaseText == DatabaseText[..10] + "cylinder" + DatabaseText[18..];
  }

  /** A name without a description of its own, such as `custom-thing`, is kept. */
  lemma CustomNameKept()
    ensures Description("custom-thing") == "custom-thing"
  {
    UnknownNamesKept("custom-thing");
  }
}
