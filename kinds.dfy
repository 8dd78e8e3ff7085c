/**
 * The five policy domains, the three object levels of each (stack, set, rule),
 * the reference inventories the translators consult, and the document keys the
 * exported YAML and the controller use for each collection.
 */
module Kinds {

  datatype Domain = Path | Qos | Nat | Security | Performance

  datatype Level = Stacks | Sets | Rules

  /** Reference inventories read from the controller to build the lookup catalogs. */
  datatype Ref =
    | AppDefs | NetworkContexts | NwGlobalPrefixes | NwLocalPrefixes | WanLabels | ServiceLabels
    | QosGlobalPrefixes | QosLocalPrefixes
    | NatZones | NatPools | NatGlobalPrefixes | NatLocalPrefixes
    | NgfwGlobalPrefixes | NgfwLocalPrefixes | SecurityZones
    | ThresholdProfiles

  /** Collection name of a domain's objects at a level: the document key and the API resource. */
  function DocKey(d: Domain, l: Level): string {
    match d
    case Path => (match l case Stacks => "networkpolicysetstacks" case Sets => "networkpolicysets" case Rules => "networkpolicyrules")
    case Qos => (match l case Stacks => "prioritypolicysetstacks" case Sets => "prioritypolicysets" case Rules => "prioritypolicyrules")
    case Nat => (match l case Stacks => "natpolicysetstacks" case Sets => "natpolicysets" case Rules => "natpolicyrules")
    case Security => (match l case Stacks => "ngfwsecuritypolicysetstacks" case Sets => "ngfwsecuritypolicysets" case Rules => "ngfwsecuritypolicyrules")
    case Performance => (match l case Stacks => "perfmgmtpolicysetstacks" case Sets => "perfmgmtpolicysets" case Rules => "perfmgmtpolicyrules")
  }

  /** Every collection has its own key, so a document never confuses two collections. */
  lemma DocKeysDistinct(d1: Domain, l1: Level, d2: Domain, l2: Level)
    ensures DocKey(d1, l1) == DocKey(d2, l2) <==> d1 == d2 && l1 == l2
  {
  }

  /** The `-PT` policy type names accepted on the command line. */
  function TypeName(d: Domain): string {
    match d
    case Path => "path"
    case Qos => "qos"
    case Nat => "nat"
    case Security => "security"
    case Performance => "performance"
  }
}
