/** Importing an `aws_route_table_association`.

    Terraform imports an existing association from an id `target/routeTableID`, where the
    target is a subnet id or a gateway id. The importer splits the id on "/", looks up the
    route table, takes the first of its associations whose subnet id or gateway id is the
    target, records which of the two matched, and makes that association's id the
    resource id. The route-table lookup is a call to the EC2 API; here it is a function
    parameter from route-table id to what the lookup returns. */
module RouteTableAssociationImport {
  import opened AwsValues

  // ---------------------------------------------------------------------------------
  // Splitting on a separator (Go's strings.Split)
  // ---------------------------------------------------------------------------------

  /** The pieces of `s` between occurrences of `sep`, as Go's `strings.Split` gives them
      for a one-character separator: the empty string gives one empty piece. */
  function Split(s: string, sep: char): (parts: seq<string>)
    ensures |parts| >= 1
    decreases |s|
  {
    if s == [] then [""]
    else
      var rest := Split(s[1..], sep);
      if s[0] == sep then [""] + rest
      else [[s[0]] + rest[0]] + rest[1..]
  }

  /** The pieces put back together with `sep` between them. */
  function Join(parts: seq<string>, sep: char): string
    requires |parts| >= 1
    decreases |parts|
  {
    if |parts| == 1 then parts[0] else parts[0] + [sep] + Join(parts[1..], sep)
  }

  function Occurrences(s: string, c: char): nat {
    if s == [] then 0 else (if s[0] == c then 1 else 0) + Occurrences(s[1..], c)
  }

  /** Splitting loses nothing: the pieces hold no separator, there is one more piece than
      separators, and joining them gives the string back. */
  lemma {:induction false} SplitJoin(s: string, sep: char)
    ensures Join(Split(s, sep), sep) == s
    ensures forall p :: p in Split(s, sep) ==> sep !in p
    ensures |Split(s, sep)| == Occurrences(s, sep) + 1
    decreases |s|
  {
    if s != [] {
      SplitJoin(s[1..], sep);
      var rest := Split(s[1..], sep);
      if s[0] == sep {
        assert Split(s, sep)[1..] == rest;
      } else {
        var parts := Split(s, sep);
        assert parts[0] == [s[0]] + rest[0];
        if |rest| > 1 {
          assert parts[1..] == rest[1..];
          assert Join(rest, sep) == rest[0] + [sep] + Join(rest[1..], sep);
        }
        assert s == [s[0]] + s[1..];
        forall p | p in parts ensures sep !in p {
          if p != parts[0] { assert p in rest; }
        }
      }
    }
  }

  /** A piece without separator, then a separator, splits off as the first piece. */
  lemma {:induction false} SplitPrefix(a: string, b: string, sep: char)
    requires sep !in a
    ensures Split(a + [sep] + b, sep) == [a] + Split(b, sep)
    decreases |a|
  {
    var s := a + [sep] + b;
    if a == [] {
      assert s[1..] == b;
    } else {
      assert s[1..] == a[1..] + [sep] + b;
      SplitPrefix(a[1..], b, sep);
      assert a == [a[0]] + a[1..];
    }
  }

  /** Splitting undoes joining pieces that hold no separator. */
  lemma {:induction false} JoinSplit(parts: seq<string>, sep: char)
    requires |parts| >= 1
    requires forall p :: p in parts ==> sep !in p
    ensures Split(Join(parts, sep), sep) == parts
    decreases |parts|
  {
    assert parts[0] in parts;
    if |parts| == 1 {
      SplitWithoutSeparator(parts[0], sep);
    } else {
      var tail := parts[1..];
      assert forall p :: p in tail ==> p in parts;
      JoinSplit(tail, sep);
      SplitPrefix(parts[0], Join(tail, sep), sep);
      assert parts == [parts[0]] + tail;
    }
  }

  lemma {:induction false} SplitWithoutSeparator(s: string, sep: char)
    requires sep !in s
    ensures Split(s, sep) == [s]
    decreases |s|
  {
    if s != [] {
      SplitWithoutSeparator(s[1..], sep);
      assert s == [s[0]] + s[1..];
    }
  }

  // ---------------------------------------------------------------------------------
  // Data model
  // ---------------------------------------------------------------------------------

  /** The fields of an EC2 `RouteTableAssociation` that the importer reads. */
  datatype RouteTableAssociation = RouteTableAssociation(
    routeTableAssociationId: Option<string>,
    subnetId: Option<string>,
    gatewayId: Option<string>)

  /** What `findRouteTableByID` gives for a route-table id. */
  datatype RouteTableLookup = RouteTableFound(associations: seq<RouteTableAssociation>) | LookupFailed(message: string)

  /** The attribute recording which id of the association matched the target. */
  const SubnetIdAttribute := "subnet_id"
  const GatewayIdAttribute := "gateway_id"
  const RouteTableIdAttribute := "route_table_id"

  datatype ImportError =
    | UnexpectedFormat(importId: string)
    | RouteTableLookupFailed(message: string)
    | NoAssociationFound(routeTableId: string, targetId: string)

  /** The importer's answer; on success, the resource it imported. */
  datatype ImportResult =
    | Imported(associationId: string, targetAttribute: string, targetId: string, routeTableId: string)
    | ImportFailed(error: ImportError)

  /** The association found for the target: which attribute matched, and its id. */
  datatype Match = Match(attribute: string, associationId: string)

  // ---------------------------------------------------------------------------------
  // Specification functions
  // ---------------------------------------------------------------------------------

  /** The two parts of an import id `target/routeTableID`, or None when it does not split
      into exactly two. */
  function ParseImportId(importId: string): Option<(string, string)> {
    var parts := Split(importId, '/');
    if |parts| != 2 then None else Some((parts[0], parts[1]))
  }

  /** The association's subnet id or gateway id is the target, nil read as "". */
  predicate MatchesTarget(a: RouteTableAssociation, targetId: string) {
    StringValue(a.subnetId) == targetId || StringValue(a.gatewayId) == targetId
  }

  /** What a matching association records; the subnet id is tried first. */
  function MatchOf(a: RouteTableAssociation, targetId: string): Match {
    Match(if StringValue(a.subnetId) == targetId then SubnetIdAttribute else GatewayIdAttribute,
          StringValue(a.routeTableAssociationId))
  }

  /** The match of the first association that matches the target, if any. */
  function FirstMatch(associations: seq<RouteTableAssociation>, targetId: string): Option<Match>
    decreases |associations|
  {
    if associations == [] then None
    else if MatchesTarget(associations[0], targetId) then Some(MatchOf(associations[0], targetId))
    else FirstMatch(associations[1..], targetId)
  }

  /** The importer's answer for an import id, given the route-table lookup. */
  function ImportSpec(importId: string, findRouteTable: string -> RouteTableLookup): ImportResult {
    match ParseImportId(importId)
    case None => ImportFailed(UnexpectedFormat(importId))
    case Some((targetId, routeTableId)) =>
      match findRouteTable(routeTableId)
      case LookupFailed(message) => ImportFailed(RouteTableLookupFailed(message))
      case RouteTableFound(associations) =>
        match FirstMatch(associations, targetId)
        case None => ImportFailed(NoAssociationFound(routeTableId, targetId))
        case Some(m) =>
          if m.associationId == "" then ImportFailed(NoAssociationFound(routeTableId, targetId))
          else Imported(m.associationId, m.attribute, targetId, routeTableId)
  }

  /** The attributes the importer writes into the resource data: the matched attribute as
      soon as an association matches, the route-table id only on success. */
  function AttributesWritten(importId: string, findRouteTable: string -> RouteTableLookup): map<string, string> {
    match ParseImportId(importId)
    case None => map[]
    case Some((targetId, routeTableId)) =>
      match findRouteTable(routeTableId)
      case LookupFailed(_) => map[]
      case RouteTableFound(associations) =>
        match FirstMatch(associations, targetId)
        case None => map[]
        case Some(m) =>
          map[m.attribute := targetId]
            + (if m.associationId == "" then map[] else map[RouteTableIdAttribute := routeTableId])
  }

  // ---------------------------------------------------------------------------------
  // Properties
  // ---------------------------------------------------------------------------------

  /** An import id parses to (target, route table) exactly when it is the two joined by one
      "/" and neither holds a "/". */
  lemma ParseImportIdExactly(importId: string, targetId: string, routeTableId: string)
    ensures ParseImportId(importId) == Some((targetId, routeTableId)) <==>
              importId == targetId + "/" + routeTableId && '/' !in targetId && '/' !in routeTableId
  {
    if ParseImportId(importId) == Some((targetId, routeTableId)) {
      SplitJoin(importId, '/');
      var parts := Split(importId, '/');
      assert parts == [targetId, routeTableId];
      assert parts[0] in parts && parts[1] in parts;
      assert Join(parts, '/') == targetId + "/" + Join(parts[1..], '/');
    }
    if importId == targetId + "/" + routeTableId && '/' !in targetId && '/' !in routeTableId {
      var parts := [targetId, routeTableId];
      assert Join(parts, '/') == importId by {
        assert Join(parts, '/') == parts[0] + ['/'] + Join(parts[1..], '/');
      }
      JoinSplit(parts, '/');
    }
  }

  /** An id that does not split on "/" into exactly two parts is rejected, whatever the lookup. */
  lemma MalformedIdIsRejected(importId: string, findRouteTable: string -> RouteTableLookup)
    requires |Split(importId, '/')| != 2
    ensures ImportSpec(importId, findRouteTable) == ImportFailed(UnexpectedFormat(importId))
    ensures AttributesWritten(importId, findRouteTable) == map[]
  {
  }

  /** The first matching association decides: nothing before it matches, and it is the one found. */
  lemma {:induction false} FirstMatchIsFirst(associations: seq<RouteTableAssociation>, targetId: string, k: int)
    requires 0 <= k < |associations| && MatchesTarget(associations[k], targetId)
    requires forall j :: 0 <= j < k ==> !MatchesTarget(associations[j], targetId)
    ensures FirstMatch(associations, targetId) == Some(MatchOf(associations[k], targetId))
    decreases k
  {
    if k > 0 {
      FirstMatchIsFirst(associations[1..], targetId, k - 1);
    }
  }

  /** No association matches exactly when nothing is found. */
  lemma {:induction false} FirstMatchNone(associations: seq<RouteTableAssociation>, targetId: string)
    ensures FirstMatch(associations, targetId).None? <==>
              forall j :: 0 <= j < |associations| ==> !MatchesTarget(associations[j], targetId)
    decreases |associations|
  {
    if associations != [] {
      FirstMatchNone(associations[1..], targetId);
      assert forall j :: 1 <= j < |associations| ==> associations[j] == associations[1..][j - 1];
    }
  }

  /** Associations after the first match are never consulted. */
  lemma {:induction false} FirstMatchIgnoresLater(associations: seq<RouteTableAssociation>, later: seq<RouteTableAssociation>, targetId: string)
    requires FirstMatch(associations, targetId).Some?
    ensures FirstMatch(associations + later, targetId) == FirstMatch(associations, targetId)
    decreases |associations|
  {
    if !MatchesTarget(associations[0], targetId) {
      FirstMatchIgnoresLater(associations[1..], later, targetId);
      assert (associations + later)[1..] == associations[1..] + later;
    }
  }

  /** A successful import is exactly: a well-formed id, a route table found, and a first matching
      association with a non-empty id; the id becomes the resource id, the second part of the import
      id the route-table id, and the attribute says whether the subnet id (tried first) matched. */
  lemma ImportSucceedsExactly(
    importId: string, findRouteTable: string -> RouteTableLookup,
    targetId: string, routeTableId: string, k: int)
    requires ParseImportId(importId) == Some((targetId, routeTableId))
    requires findRouteTable(routeTableId).RouteTableFound?
    requires var assocs := findRouteTable(routeTableId).associations;
             && 0 <= k < |assocs| && MatchesTarget(assocs[k], targetId)
             && forall j :: 0 <= j < k ==> !MatchesTarget(assocs[j], targetId)
    ensures var a := findRouteTable(routeTableId).associations[k];
            ImportSpec(importId, findRouteTable) ==
              if StringValue(a.routeTableAssociationId) == "" then ImportFailed(NoAssociationFound(routeTableId, targetId))
              else Imported(StringValue(a.routeTableAssociationId),
                            if StringValue(a.subnetId) == targetId then SubnetIdAttribute else GatewayIdAttribute,
                            targetId, routeTableId)
  {
    FirstMatchIsFirst(findRouteTable(routeTableId).associations, targetId, k);
  }

  /** When no association of the found route table matches, the import fails and writes nothing. */
  lemma NoMatchFails(importId: string, findRouteTable: string -> RouteTableLookup, targetId: string, routeTableId: string)
    requires ParseImportId(importId) == Some((targetId, routeTableId))
    requires findRouteTable(routeTableId).RouteTableFound?
    requires forall a :: a in findRouteTable(routeTableId).associations ==> !MatchesTarget(a, targetId)
    ensures ImportSpec(importId, findRouteTable) == ImportFailed(NoAssociationFound(routeTableId, targetId))
    ensures AttributesWritten(importId, findRouteTable) == map[]
  {
    var assocs := findRouteTable(routeTableId).associations;
    FirstMatchNone(assocs, targetId);
  }

  /** An import id with an empty target ("/rtb-1") stops at the first association whose subnet id
      or gateway id reads as "" (nil or empty). Its subnet is tried first, so it is recorded as
      `subnet_id` = "" when its subnet id reads as "", and as `gateway_id` = "" otherwise; an
      association id that reads as "" makes the import fail instead. */
  lemma {:induction false} EmptyTargetImportsFirstEmptyId(
    routeTableId: string, findRouteTable: string -> RouteTableLookup, k: int)
    requires '/' !in routeTableId
    requires findRouteTable(routeTableId).RouteTableFound?
    requires var assocs := findRouteTable(routeTableId).associations;
             && 0 <= k < |assocs|
             && (StringValue(assocs[k].subnetId) == "" || StringValue(assocs[k].gatewayId) == "")
             && forall j :: 0 <= j < k ==> StringValue(assocs[j].subnetId) != "" && StringValue(assocs[j].gatewayId) != ""
    ensures var a := findRouteTable(routeTableId).associations[k];
            ImportSpec("/" + routeTableId, findRouteTable) ==
              if StringValue(a.routeTableAssociationId) == "" then ImportFailed(NoAssociationFound(routeTableId, ""))
              else Imported(StringValue(a.routeTableAssociationId),
                            if StringValue(a.subnetId) == "" then SubnetIdAttribute else GatewayIdAttribute,
                            "", routeTableId)
  {
    ParseImportIdExactly("/" + routeTableId, "", routeTableId);
    ImportSucceedsExactly("/" + routeTableId, findRouteTable, "", routeTableId, k);
  }

  /** When the main association (no subnet, no gateway) is listed first, "/rtb-1" imports it as
      `subnet_id` = "". */
  lemma MainAssociationFirstImportedByEmptyTarget(
    routeTableId: string, findRouteTable: string -> RouteTableLookup,
    associationId: string, rest: seq<RouteTableAssociation>)
    requires '/' !in routeTableId && associationId != ""
    requires findRouteTable(routeTableId) == RouteTableFound([RouteTableAssociation(Some(associationId), None, None)] + rest)
    ensures ImportSpec("/" + routeTableId, findRouteTable) == Imported(associationId, SubnetIdAttribute, "", routeTableId)
  {
    EmptyTargetImportsFirstEmptyId(routeTableId, findRouteTable, 0);
  }

  /** A subnet association listed before the main association has a nil gateway id, so "/rtb-1"
      imports that subnet association, as `gateway_id` = "", and not the main association. */
  lemma SubnetAssociationBeforeMainImportedByEmptyTarget(findRouteTable: string -> RouteTableLookup)
    requires findRouteTable("rtb-1") == RouteTableFound([
               RouteTableAssociation(Some("rtbassoc-s"), Some("subnet-1"), None),
               RouteTableAssociation(Some("rtbassoc-main"), None, None)])
    ensures ImportSpec("/rtb-1", findRouteTable) == Imported("rtbassoc-s", GatewayIdAttribute, "", "rtb-1")
  {
    EmptyTargetImportsFirstEmptyId("rtb-1", findRouteTable, 0);
  }

  // ---------------------------------------------------------------------------------
  // The importer as the provider runs it
  // ---------------------------------------------------------------------------------

  /** The resource data the importer fills in: its id and the attributes written with `Set`. */
  class ResourceData {
    var id: string
    var attributes: map<string, string>

    constructor (id: string)
      ensures this.id == id && attributes == map[]
    {
      this.id := id;
      attributes := map[];
    }

    /** `d.Set`. */
    method Set(key: string, value: string)
      modifies this
      ensures id == old(id)
      ensures attributes == old(attributes)[key := value]
    {
      attributes := attributes[key := value];
    }

    /** `d.SetId`. */
    method SetId(newId: string)
      modifies this
      ensures id == newId
      ensures attributes == old(attributes)
    {
      id := newId;
    }
  }

  /** `resourceAwsRouteTableAssociationImport`: answers as ImportSpec says; the resource id becomes
      the association id on success only; the attributes gain what AttributesWritten says. */
  method ResourceRouteTableAssociationImport(d: ResourceData, findRouteTable: string -> RouteTableLookup)
    returns (result: ImportResult)
    modifies d
    ensures result == ImportSpec(old(d.id), findRouteTable)
    ensures d.id == if result.Imported? then result.associationId else old(d.id)
    ensures d.attributes == old(d.attributes) + AttributesWritten(old(d.id), findRouteTable)
  {
    var importId := d.id;
    var parts := Split(importId, '/');
    if |parts| != 2 {
      assert AttributesWritten(importId, findRouteTable) == map[];
      return ImportFailed(UnexpectedFormat(importId));
    }
    var targetId := parts[0];
    var routeTableId := parts[1];
    assert ParseImportId(importId) == Some((targetId, routeTableId));

    var routeTable := findRouteTable(routeTableId);
    if routeTable.LookupFailed? {
      assert AttributesWritten(importId, findRouteTable) == map[];
      return ImportFailed(RouteTableLookupFailed(routeTable.message));
    }
    var associations := routeTable.associations;

    var associationId := "";
    var matchedAttribute := "";
    ghost var matched: Option<Match> := None;
    var i := 0;
    while i < |associations|
      invariant 0 <= i <= |associations|
      invariant FirstMatch(associations, targetId) == FirstMatch(associations[i..], targetId)
      invariant matched == None && associationId == ""
      invariant d.id == importId && d.attributes == old(d.attributes)
    {
      var association := associations[i];
      assert associations[i..][1..] == associations[i + 1..];
      if StringValue(association.subnetId) == targetId {
        d.Set(SubnetIdAttribute, targetId);
        matchedAttribute := SubnetIdAttribute;
        associationId := StringValue(association.routeTableAssociationId);
        matched := Some(Match(matchedAttribute, associationId));
        break;
      }
      if StringValue(association.gatewayId) == targetId {
        d.Set(GatewayIdAttribute, targetId);
        matchedAttribute := GatewayIdAttribute;
        associationId := StringValue(association.routeTableAssociationId);
        matched := Some(Match(matchedAttribute, associationId));
        break;
      }
      i := i + 1;
    }
    assert FirstMatch(associations, targetId) == matched;
    assert matched.Some? ==> matched.value.associationId == associationId;
    assert d.attributes == old(d.attributes) + (if matched.Some? then map[matchedAttribute := targetId] else map[]);

    if associationId == "" {
      assert AttributesWritten(importId, findRouteTable) == (if matched.Some? then map[matchedAttribute := targetId] else map[]);
      return ImportFailed(NoAssociationFound(routeTableId, targetId));
    }

    d.SetId(associationId);
    d.Set(RouteTableIdAttribute, routeTableId);
    assert AttributesWritten(importId, findRouteTable) == map[matchedAttribute := targetId][RouteTableIdAttribute := routeTableId];
    return Imported(associationId, matchedAttribute, targetId, routeTableId);
  }
}
