/** The GDPR consent record and its line-oriented text rendering
    (`GdprConsent.ToFullString`). The rendering is specified by `Lines`,
    the list of lines in output order, and `Join`, which ends every line
    with a newline; the method `ToFullString` builds the same text with
    the source's nested loops. */
module GdprConsentModel {
  import opened Common

  /** A C# `Dictionary<string, V>`, written as its key/value pairs in the
      order a `foreach` over it visits them. */
  type Dict<V> = seq<(string, V)>

  /** A TCData value (`object`); the rendering never looks inside it. */
  datatype TcValue = TcValue(text: string)

  /** `SpVendorGrant`: the vendor's top-level grant and its per-purpose
      grants, which may be null. */
  datatype SpVendorGrant = SpVendorGrant(vendorGrant: bool, purposeGrants: Option<Dict<bool>>)

  /** `GdprConsent`: every reference-typed field may be null. */
  datatype GdprConsent = GdprConsent(
    uuid: Option<string>,
    euconsent: Option<string>,
    tcData: Option<Dict<TcValue>>,
    grants: Option<Dict<SpVendorGrant>>,
    acceptedCategories: Option<seq<string>>,
    applies: bool,
    webConsentPayload: Option<string>)

  // ---------------------------------------------------------------------
  // Specification of the rendering

  /** String interpolation of a possibly-null string: null prints as nothing. */
  function Text(s: Option<string>): string {
    if s.Some? then s.value else ""
  }

  /** `bool.ToString()`. */
  function BoolText(b: bool): string {
    if b then "True" else "False"
  }

  /** One line per element, in order. */
  function MapLines<T>(xs: seq<T>, f: T -> string): seq<string>
    decreases |xs|
  {
    if xs == [] then [] else MapLines(xs[..|xs| - 1], f) + [f(xs[|xs| - 1])]
  }

  function HeaderLines(c: GdprConsent): seq<string> {
    [ "UUID: " + Text(c.uuid),
      "EUConsent: " + Text(c.euconsent),
      "Applies: " + BoolText(c.applies),
      "WebConsentPayload: " + Text(c.webConsentPayload) ]
  }

  /** Only the header: the entry lines are commented out in the source. */
  function TcDataLines(tc: Option<Dict<TcValue>>): seq<string> {
    if tc.Some? then ["TCData:"] else []
  }

  function PurposeLine(p: (string, bool)): string {
    "        " + p.0 + ": " + BoolText(p.1)
  }

  function PurposeBlock(pg: Option<Dict<bool>>): seq<string> {
    if pg.Some? then ["    Purpose Grants:"] + MapLines(pg.value, PurposeLine) else []
  }

  function VendorLines(g: (string, SpVendorGrant)): seq<string> {
    ["    Vendor: " + g.0, "    VendorGrant: " + BoolText(g.1.vendorGrant)] + PurposeBlock(g.1.purposeGrants)
  }

  /** The lines of each element, one element after the other. */
  function FlatMapLines<T>(xs: seq<T>, f: T -> seq<string>): seq<string>
    decreases |xs|
  {
    if xs == [] then [] else FlatMapLines(xs[..|xs| - 1], f) + f(xs[|xs| - 1])
  }

  /** The lines of all vendors, vendor after vendor in dictionary order. */
  function AllVendorLines(gs: Dict<SpVendorGrant>): seq<string> {
    FlatMapLines(gs, VendorLines)
  }

  function GrantsLines(grants: Option<Dict<SpVendorGrant>>): seq<string> {
    if grants.Some? then ["Grants:"] + AllVendorLines(grants.value) else []
  }

  function CategoryLine(category: string): string {
    "    " + category
  }

  function CategoriesLines(cs: Option<seq<string>>): seq<string> {
    if cs.Some? then ["Accepted Categories:"] + MapLines(cs.value, CategoryLine) else []
  }

  /** Every line `ToFullString` appends, in the order it appends them. */
  function Lines(c: GdprConsent): seq<string> {
    HeaderLines(c) + TcDataLines(c.tcData) + GrantsLines(c.grants) + CategoriesLines(c.acceptedCategories)
  }

  /** What a `StringBuilder` holds after `AppendLine` of each line in turn. */
  function Join(lines: seq<string>): string
    decreases |lines|
  {
    if lines == [] then "" else Join(lines[..|lines| - 1]) + lines[|lines| - 1] + "\n"
  }

  // ---------------------------------------------------------------------
  // The rendering, as the source computes it

  lemma Associative<T>(a: seq<T>, b: seq<T>, c: seq<T>)
    ensures a + b + c == a + (b + c)
  {
  }

  /** `sb.AppendLine(line)`. */
  method AppendLine(sb: string, ghost lines: seq<string>, line: string) returns (r: string)
    requires sb == Join(lines)
    ensures r == Join(lines + [line])
  {
    assert (lines + [line])[..|lines|] == lines;
    r := sb + line + "\n";
  }

  /** The purpose-grant loop: one `key: value` line per purpose. */
  method AppendPurposes(sb: string, ghost lines: seq<string>, ps: Dict<bool>) returns (r: string)
    requires sb == Join(lines)
    ensures r == Join(lines + MapLines(ps, PurposeLine))
  {
    r := sb;
    var j := 0;
    MapLinesEmpty(lines, ps, PurposeLine);
    while j < |ps|
      invariant 0 <= j <= |ps|
      invariant r == Join(lines + MapLines(ps[..j], PurposeLine))
    {
      r := AppendLine(r, lines + MapLines(ps[..j], PurposeLine), PurposeLine(ps[j]));
      MapLinesStep(lines, ps, j, PurposeLine);
      j := j + 1;
    }
    assert ps[..j] == ps;
  }

  lemma MapLinesEmpty<T>(lines: seq<string>, xs: seq<T>, f: T -> string)
    ensures lines + MapLines(xs[..0], f) == lines
  {
    assert xs[..0] == [];
  }

  /** One more element of a prefix adds its line at the end. */
  lemma MapLinesStep<T>(lines: seq<string>, xs: seq<T>, j: nat, f: T -> string)
    requires j < |xs|
    ensures lines + MapLines(xs[..j], f) + [f(xs[j])] == lines + MapLines(xs[..j + 1], f)
  {
    assert xs[..j + 1][..j] == xs[..j];
    Associative(lines, MapLines(xs[..j], f), [f(xs[j])]);
  }

  /** The body of the grants loop for one vendor. */
  method AppendVendor(sb: string, ghost lines: seq<string>, g: (string, SpVendorGrant)) returns (r: string)
    requires sb == Join(lines)
    ensures r == Join(lines + VendorLines(g))
  {
    var key, grant := g.0, g.1;
    var vendorLine, grantLine := "    Vendor: " + key, "    VendorGrant: " + BoolText(grant.vendorGrant);
    r := AppendLine(sb, lines, vendorLine);
    r := AppendLine(r, lines + [vendorLine], grantLine);
    ghost var both := lines + [vendorLine] + [grantLine];
    assert both == lines + [vendorLine, grantLine];
    if grant.purposeGrants.Some? {
      var ps := grant.purposeGrants.value;
      r := AppendLine(r, both, "    Purpose Grants:");
      r := AppendPurposes(r, both + ["    Purpose Grants:"], ps);
      assert both + ["    Purpose Grants:"] + MapLines(ps, PurposeLine) == lines + VendorLines(g) by {
        Associative(both, ["    Purpose Grants:"], MapLines(ps, PurposeLine));
        Associative(lines, [vendorLine, grantLine], PurposeBlock(grant.purposeGrants));
      }
    } else {
      assert [vendorLine, grantLine] + [] == VendorLines(g);
      assert both == lines + VendorLines(g);
    }
  }

  /** The grants loop, vendor after vendor. */
  method AppendVendors(sb: string, ghost lines: seq<string>, gs: Dict<SpVendorGrant>) returns (r: string)
    requires sb == Join(lines)
    ensures r == Join(lines + AllVendorLines(gs))
  {
    r := sb;
    var i := 0;
    assert lines + AllVendorLines(gs[..0]) == lines by {
      assert gs[..0] == [];
    }
    while i < |gs|
      invariant 0 <= i <= |gs|
      invariant r == Join(lines + AllVendorLines(gs[..i]))
    {
      r := AppendVendor(r, lines + AllVendorLines(gs[..i]), gs[i]);
      VendorStep(lines, gs, i);
      i := i + 1;
    }
    assert gs[..i] == gs;
  }

  lemma VendorStep(lines: seq<string>, gs: Dict<SpVendorGrant>, i: nat)
    requires i < |gs|
    ensures lines + AllVendorLines(gs[..i]) + VendorLines(gs[i]) == lines + AllVendorLines(gs[..i + 1])
  {
    FlatMapSnoc(gs, i, VendorLines);
    Associative(lines, AllVendorLines(gs[..i]), VendorLines(gs[i]));
  }

  lemma FlatMapSnoc<T>(xs: seq<T>, i: nat, f: T -> seq<string>)
    requires i < |xs|
    ensures FlatMapLines(xs[..i + 1], f) == FlatMapLines(xs[..i], f) + f(xs[i])
  {
    assert xs[..i + 1][..i] == xs[..i];
  }

  /** The accepted-categories loop: one indented line per category. */
  method AppendCategories(sb: string, ghost lines: seq<string>, cs: seq<string>) returns (r: string)
    requires sb == Join(lines)
    ensures r == Join(lines + MapLines(cs, CategoryLine))
  {
    r := sb;
    var k := 0;
    MapLinesEmpty(lines, cs, CategoryLine);
    while k < |cs|
      invariant 0 <= k <= |cs|
      invariant r == Join(lines + MapLines(cs[..k], CategoryLine))
    {
      r := AppendLine(r, lines + MapLines(cs[..k], CategoryLine), CategoryLine(cs[k]));
      MapLinesStep(lines, cs, k, CategoryLine);
      k := k + 1;
    }
    assert cs[..k] == cs;
  }

  /** The four unconditional header lines. */
  method AppendHeader(c: GdprConsent) returns (s: string)
    ensures s == Join(HeaderLines(c))
  {
    var l0, l1 := "UUID: " + Text(c.uuid), "EUConsent: " + Text(c.euconsent);
    var l2, l3 := "Applies: " + BoolText(c.applies), "WebConsentPayload: " + Text(c.webConsentPayload);
    s := AppendLine("", [], l0);
    assert [] + [l0] == [l0];
    s := AppendLine(s, [l0], l1);
    assert [l0] + [l1] == [l0, l1];
    s := AppendLine(s, [l0, l1], l2);
    assert [l0, l1] + [l2] == [l0, l1, l2];
    s := AppendLine(s, [l0, l1, l2], l3);
    assert [l0, l1, l2] + [l3] == HeaderLines(c);
  }

  /** The TCData section: its header only, when TCData is not null. */
  method AppendTcData(sb: string, ghost lines: seq<string>, tc: Option<Dict<TcValue>>) returns (r: string)
    requires sb == Join(lines)
    ensures r == Join(lines + TcDataLines(tc))
  {
    r := sb;
    if tc.Some? {
      r := AppendLine(r, lines, "TCData:");
    } else {
      assert lines + [] == lines;
    }
  }

  /** The Grants section, when grants is not null. */
  method AppendGrants(sb: string, ghost lines: seq<string>, grants: Option<Dict<SpVendorGrant>>) returns (r: string)
    requires sb == Join(lines)
    ensures r == Join(lines + GrantsLines(grants))
  {
    r := sb;
    if grants.Some? {
      r := AppendLine(r, lines, "Grants:");
      r := AppendVendors(r, lines + ["Grants:"], grants.value);
      Associative(lines, ["Grants:"], AllVendorLines(grants.value));
    } else {
      assert lines + [] == lines;
    }
  }

  /** The Accepted Categories section, when acceptedCategories is not null. */
  method AppendAcceptedCategories(sb: string, ghost lines: seq<string>, cs: Option<seq<string>>) returns (r: string)
    requires sb == Join(lines)
    ensures r == Join(lines + CategoriesLines(cs))
  {
    r := sb;
    if cs.Some? {
      r := AppendLine(r, lines, "Accepted Categories:");
      r := AppendCategories(r, lines + ["Accepted Categories:"], cs.value);
      Associative(lines, ["Accepted Categories:"], MapLines(cs.value, CategoryLine));
    } else {
      assert lines + [] == lines;
    }
  }

  /** `GdprConsent.ToFullString`. The consent is a value, so the rendering
      cannot change any of its fields. */
  method ToFullString(c: GdprConsent) returns (s: string)
    ensures s == Join(Lines(c))
  {
    ghost var a := HeaderLines(c);
    ghost var b := a + TcDataLines(c.tcData);
    ghost var d := b + GrantsLines(c.grants);
    s := AppendHeader(c);
    s := AppendTcData(s, a, c.tcData);
    s := AppendGrants(s, b, c.grants);
    s := AppendAcceptedCategories(s, d, c.acceptedCategories);
  }

  // ---------------------------------------------------------------------
  // Properties of the rendering

  /** The output starts with the four header lines, in this order. */
  lemma HeaderComesFirst(c: GdprConsent)
    ensures |Lines(c)| >= 4
    ensures Lines(c)[0] == "UUID: " + Text(c.uuid)
    ensures Lines(c)[1] == "EUConsent: " + Text(c.euconsent)
    ensures Lines(c)[2] == "Applies: " + BoolText(c.applies)
    ensures Lines(c)[3] == "WebConsentPayload: " + Text(c.webConsentPayload)
  {
  }

  /** `MapLines` emits exactly one line per element, in element order. */
  lemma {:induction false} MapLinesAt<T>(xs: seq<T>, f: T -> string)
    ensures |MapLines(xs, f)| == |xs|
    ensures forall i | 0 <= i < |xs| :: MapLines(xs, f)[i] == f(xs[i])
    decreases |xs|
  {
    if xs != [] {
      MapLinesAt(xs[..|xs| - 1], f);
    }
  }

  lemma {:induction false} FlatMapAppend<T>(a: seq<T>, b: seq<T>, f: T -> seq<string>)
    ensures FlatMapLines(a + b, f) == FlatMapLines(a, f) + FlatMapLines(b, f)
    decreases |b|
  {
    if b == [] {
      assert a + b == a;
    } else {
      var n := |b| - 1;
      assert (a + b)[..|a + b| - 1] == a + b[..n];
      assert (a + b)[|a + b| - 1] == b[n];
      FlatMapAppend(a, b[..n], f);
      Associative(FlatMapLines(a, f), FlatMapLines(b[..n], f), f(b[n]));
    }
  }

  lemma FlatMapCut<T>(xs: seq<T>, k: nat, f: T -> seq<string>)
    requires k <= |xs|
    ensures FlatMapLines(xs, f) == FlatMapLines(xs[..k], f) + FlatMapLines(xs[k..], f)
  {
    assert xs[..k] + xs[k..] == xs;
    FlatMapAppend(xs[..k], xs[k..], f);
  }

  /** The lines of element `k` sit, intact, between the lines of the
      elements before it and those of the elements after it. */
  lemma FlatMapAt<T>(xs: seq<T>, k: nat, f: T -> seq<string>)
    requires k < |xs|
    ensures FlatMapLines(xs, f) == FlatMapLines(xs[..k], f) + f(xs[k]) + FlatMapLines(xs[k + 1..], f)
  {
    FlatMapCut(xs, k + 1, f);
    FlatMapSnoc(xs, k, f);
  }

  /** In the Grants section the vendors appear in dictionary order: the
      two lines `    Vendor: k` and `    VendorGrant: v` of vendor `k`
      (followed by its purpose block) sit between the lines of the vendors
      before it and those after it. */
  lemma VendorLinesInOrder(gs: Dict<SpVendorGrant>, k: nat)
    requires k < |gs|
    ensures AllVendorLines(gs) == AllVendorLines(gs[..k]) + VendorLines(gs[k]) + AllVendorLines(gs[k + 1..])
    ensures VendorLines(gs[k])[0] == "    Vendor: " + gs[k].0
    ensures VendorLines(gs[k])[1] == "    VendorGrant: " + BoolText(gs[k].1.vendorGrant)
  {
    FlatMapAt(gs, k, VendorLines);
  }

  /** The number of lines a vendor produces: two, plus a header and one
      line per purpose when its purpose grants are not null. */
  function VendorLineCount(g: (string, SpVendorGrant)): nat {
    var pg := g.1.purposeGrants;
    2 + (if pg.Some? then 1 + |pg.value| else 0)
  }

  /** The number of lines the vendors of a grants dictionary produce. */
  function GrantLineCount(gs: Dict<SpVendorGrant>): nat
    decreases |gs|
  {
    if gs == [] then 0 else VendorLineCount(gs[0]) + GrantLineCount(gs[1..])
  }

  lemma {:induction false} GrantLineCountAppend(a: Dict<SpVendorGrant>, b: Dict<SpVendorGrant>)
    ensures GrantLineCount(a + b) == GrantLineCount(a) + GrantLineCount(b)
    decreases |a|
  {
    if a == [] {
      assert a + b == b;
    } else {
      assert (a + b)[0] == a[0];
      assert (a + b)[1..] == a[1..] + b;
      GrantLineCountAppend(a[1..], b);
    }
  }

  lemma VendorLinesCount(g: (string, SpVendorGrant))
    ensures |VendorLines(g)| == VendorLineCount(g)
  {
    if g.1.purposeGrants.Some? {
      MapLinesAt(g.1.purposeGrants.value, PurposeLine);
    }
  }

  lemma {:induction false} AllVendorLinesCount(gs: Dict<SpVendorGrant>)
    ensures |AllVendorLines(gs)| == GrantLineCount(gs)
    decreases |gs|
  {
    if gs != [] {
      var n := |gs| - 1;
      AllVendorLinesCount(gs[..n]);
      VendorLinesCount(gs[n]);
      assert gs[..n] + [gs[n]] == gs;
      GrantLineCountAppend(gs[..n], [gs[n]]);
      assert GrantLineCount([gs[n]]) == VendorLineCount(gs[n]);
    }
  }

  /** The total line count is 4 plus the sizes of the sections present:
      one for TCData, one plus the vendor lines for Grants, one plus one
      per category for Accepted Categories. */
  lemma LineCount(c: GdprConsent)
    ensures |Lines(c)| ==
      4
      + (if c.tcData.Some? then 1 else 0)
      + (if c.grants.Some? then 1 + GrantLineCount(c.grants.value) else 0)
      + (if c.acceptedCategories.Some? then 1 + |c.acceptedCategories.value| else 0)
  {
    if c.grants.Some? {
      AllVendorLinesCount(c.grants.value);
    }
    if c.acceptedCategories.Some? {
      MapLinesAt(c.acceptedCategories.value, CategoryLine);
    }
  }

  /** Every line of every element satisfies `p`, so every line of the
      flattened list does. */
  lemma {:induction false} FlatMapAll<T>(xs: seq<T>, f: T -> seq<string>, p: string -> bool)
    requires forall i, l | 0 <= i < |xs| && l in f(xs[i]) :: p(l)
    ensures forall l | l in FlatMapLines(xs, f) :: p(l)
    decreases |xs|
  {
    if xs != [] {
      var n := |xs| - 1;
      FlatMapAll(xs[..n], f, p);
    }
  }

  lemma MapLinesAll<T>(xs: seq<T>, f: T -> string, p: string -> bool)
    requires forall i | 0 <= i < |xs| :: p(f(xs[i]))
    ensures forall l | l in MapLines(xs, f) :: p(l)
  {
    MapLinesAt(xs, f);
    forall l | l in MapLines(xs, f) ensures p(l) {
      var i :| 0 <= i < |xs| && MapLines(xs, f)[i] == l;
    }
  }

  /** A line that starts with a space. */
  predicate Indented(line: string) {
    |line| > 0 && line[0] == ' '
  }

  lemma VendorLinesIndented(gs: Dict<SpVendorGrant>)
    ensures forall l | l in AllVendorLines(gs) :: Indented(l)
  {
    forall i | 0 <= i < |gs| ensures forall l | l in VendorLines(gs[i]) :: Indented(l) {
      var pg := gs[i].1.purposeGrants;
      if pg.Some? {
        MapLinesAll(pg.value, PurposeLine, Indented);
      }
    }
    FlatMapAll(gs, VendorLines, Indented);
  }

  lemma HeaderLinesAreNotSectionHeaders(c: GdprConsent)
    ensures forall l | l in HeaderLines(c) :: l != "TCData:" && l != "Grants:" && l != "Accepted Categories:"
  {
    var h := HeaderLines(c);
    assert h[0][0] == 'U' && h[1][0] == 'E' && h[2][1] == 'p' && h[3][0] == 'W';
  }

  lemma GrantsLinesShape(grants: Option<Dict<SpVendorGrant>>)
    ensures forall l | l in GrantsLines(grants) :: l == "Grants:" || Indented(l)
    ensures "Grants:" in GrantsLines(grants) <==> grants.Some?
  {
    if grants.Some? {
      VendorLinesIndented(grants.value);
    }
  }

  lemma CategoriesLinesShape(cs: Option<seq<string>>)
    ensures forall l | l in CategoriesLines(cs) :: l == "Accepted Categories:" || Indented(l)
    ensures "Accepted Categories:" in CategoriesLines(cs) <==> cs.Some?
  {
    if cs.Some? {
      MapLinesAll(cs.value, CategoryLine, Indented);
    }
  }

  /** Each section header appears if and only if its field is not null:
      `TCData:` for TCData (and the section is that one line: no TCData
      entry is ever emitted), `Grants:` for grants, `Accepted Categories:`
      for acceptedCategories. */
  lemma SectionHeaders(c: GdprConsent)
    ensures "TCData:" in Lines(c) <==> c.tcData.Some?
    ensures |TcDataLines(c.tcData)| <= 1
    ensures "Grants:" in Lines(c) <==> c.grants.Some?
    ensures "Accepted Categories:" in Lines(c) <==> c.acceptedCategories.Some?
  {
    HeaderLinesAreNotSectionHeaders(c);
    GrantsLinesShape(c.grants);
    CategoriesLinesShape(c.acceptedCategories);
    assert !Indented("TCData:") && !Indented("Grants:") && !Indented("Accepted Categories:");
  }

  /** A vendor's `Purpose Grants:` block is present exactly when its
      purpose grants are not null; it holds one `key: value` line per
      purpose, in dictionary order. */
  lemma PurposeBlockShape(g: (string, SpVendorGrant))
    ensures "    Purpose Grants:" in VendorLines(g) <==> g.1.purposeGrants.Some?
    ensures g.1.purposeGrants.None? ==> |VendorLines(g)| == 2
    ensures g.1.purposeGrants.Some? ==>
      && |VendorLines(g)| == 3 + |g.1.purposeGrants.value|
      && VendorLines(g)[2] == "    Purpose Grants:"
      && forall i | 0 <= i < |g.1.purposeGrants.value| ::
           VendorLines(g)[3 + i] == "        " + g.1.purposeGrants.value[i].0 + ": " + BoolText(g.1.purposeGrants.value[i].1)
  {
    var v := VendorLines(g);
    assert v[0][4] == 'V' && v[1][4] == 'V';
    assert "    Purpose Grants:"[4] == 'P';
    if g.1.purposeGrants.Some? {
      var ps := g.1.purposeGrants.value;
      MapLinesAt(ps, PurposeLine);
      MapLinesAll(ps, PurposeLine, (l: string) => |l| > 4 && l[4] == ' ');
    }
  }

  /** `Accepted Categories:` is followed by one line per category, in list order. */
  lemma CategoriesShape(cs: seq<string>)
    ensures |CategoriesLines(Some(cs))| == 1 + |cs|
    ensures CategoriesLines(Some(cs))[0] == "Accepted Categories:"
    ensures forall i | 0 <= i < |cs| :: CategoriesLines(Some(cs))[1 + i] == "    " + cs[i]
  {
    MapLinesAt(cs, CategoryLine);
  }

  // ---------------------------------------------------------------------
  // Every line ends with a newline: the text splits back into its lines

  /** The index of the first newline in `s`, or `|s|` if there is none. */
  function LineEnd(s: string): (i: nat)
    ensures i <= |s|
    ensures forall k | 0 <= k < i :: s[k] != '\n'
    ensures i < |s| ==> s[i] == '\n'
  {
    if s == [] || s[0] == '\n' then 0 else 1 + LineEnd(s[1..])
  }

  /** Cuts a text into the lines its newlines end. */
  function SplitLines(s: string): seq<string>
    decreases |s|
  {
    if s == [] then []
    else
      var i := LineEnd(s);
      if i == |s| then [s] else [s[..i]] + SplitLines(s[i + 1..])
  }

  lemma {:induction false} JoinAppend(a: seq<string>, b: seq<string>)
    ensures Join(a + b) == Join(a) + Join(b)
    decreases |b|
  {
    if b == [] {
      assert a + b == a;
    } else {
      var n := |b| - 1;
      assert (a + b)[..|a + b| - 1] == a + b[..n];
      assert (a + b)[|a + b| - 1] == b[n];
      JoinAppend(a, b[..n]);
    }
  }

  lemma {:induction false} LineEndOfLine(l: string, rest: string)
    requires '\n' !in l
    ensures LineEnd(l + "\n" + rest) == |l|
    decreases |l|
  {
    if l != [] {
      assert (l + "\n" + rest)[1..] == l[1..] + "\n" + rest;
      LineEndOfLine(l[1..], rest);
    }
  }

  /** Joining lines that hold no newline and splitting the result gives
      back exactly those lines. */
  lemma {:induction false} SplitJoin(lines: seq<string>)
    requires forall l | l in lines :: '\n' !in l
    ensures SplitLines(Join(lines)) == lines
    decreases |lines|
  {
    if lines != [] {
      var l, rest := lines[0], lines[1..];
      assert [l] + rest == lines;
      JoinAppend([l], rest);
      assert Join([l]) == l + "\n" by {
        assert [l][..0] == [];
      }
      var s := Join(lines);
      assert s == l + "\n" + Join(rest);
      LineEndOfLine(l, Join(rest));
      assert s[..|l|] == l;
      assert s[|l| + 1..] == Join(rest);
      SplitJoin(rest);
    }
  }

  predicate NoNewline(s: string) {
    '\n' !in s
  }

  predicate VendorHasNoNewline(g: (string, SpVendorGrant)) {
    && NoNewline(g.0)
    && (g.1.purposeGrants.Some? ==>
          forall j | 0 <= j < |g.1.purposeGrants.value| :: NoNewline(g.1.purposeGrants.value[j].0))
  }

  /** No rendered field of the consent holds a newline. */
  predicate NoNewlines(c: GdprConsent) {
    && NoNewline(Text(c.uuid))
    && NoNewline(Text(c.euconsent))
    && NoNewline(Text(c.webConsentPayload))
    && (c.grants.Some? ==> forall i | 0 <= i < |c.grants.value| :: VendorHasNoNewline(c.grants.value[i]))
    && (c.acceptedCategories.Some? ==>
          forall i | 0 <= i < |c.acceptedCategories.value| :: NoNewline(c.acceptedCategories.value[i]))
  }

  lemma VendorHasNoNewlineLines(g: (string, SpVendorGrant))
    requires VendorHasNoNewline(g)
    ensures forall l | l in VendorLines(g) :: NoNewline(l)
  {
    if g.1.purposeGrants.Some? {
      MapLinesAll(g.1.purposeGrants.value, PurposeLine, NoNewline);
    }
  }

  lemma VendorLinesHaveNoNewline(gs: Dict<SpVendorGrant>)
    requires forall i | 0 <= i < |gs| :: VendorHasNoNewline(gs[i])
    ensures forall l | l in AllVendorLines(gs) :: NoNewline(l)
  {
    forall i | 0 <= i < |gs| ensures forall l | l in VendorLines(gs[i]) :: NoNewline(l) {
      VendorHasNoNewlineLines(gs[i]);
    }
    FlatMapAll(gs, VendorLines, NoNewline);
  }

  lemma HeaderHasNoNewline(c: GdprConsent)
    requires NoNewlines(c)
    ensures forall l | l in HeaderLines(c) :: NoNewline(l)
  {
  }

  lemma GrantsHaveNoNewline(grants: Option<Dict<SpVendorGrant>>)
    requires grants.Some? ==> forall i | 0 <= i < |grants.value| :: VendorHasNoNewline(grants.value[i])
    ensures forall l | l in GrantsLines(grants) :: NoNewline(l)
  {
    if grants.Some? {
      VendorLinesHaveNoNewline(grants.value);
    }
  }

  lemma CategoriesHaveNoNewline(cs: Option<seq<string>>)
    requires cs.Some? ==> forall i | 0 <= i < |cs.value| :: NoNewline(cs.value[i])
    ensures forall l | l in CategoriesLines(cs) :: NoNewline(l)
  {
    if cs.Some? {
      MapLinesAll(cs.value, CategoryLine, NoNewline);
    }
  }

  lemma LinesHaveNoNewline(c: GdprConsent)
    requires NoNewlines(c)
    ensures forall l | l in Lines(c) :: '\n' !in l
  {
    HeaderHasNoNewline(c);
    GrantsHaveNoNewline(c.grants);
    CategoriesHaveNoNewline(c.acceptedCategories);
  }

  /** When the fields hold no newline, `ToFullString`'s text is its lines,
      each ended by a newline: splitting the text recovers `Lines`. */
  lemma FullStringSplitsIntoLines(c: GdprConsent)
    requires NoNewlines(c)
    ensures SplitLines(Join(Lines(c))) == Lines(c)
  {
    LinesHaveNoNewline(c);
    SplitJoin(Lines(c));
  }
}
