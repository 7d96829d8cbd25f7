/** The records and rows shared by the components. */
module Domain {
  import opened Calendar

  datatype Option<+T> = None | Some(value: T)

  datatype Provider = AWS | OCI | Other(name: string)

  const CUR_LINE_ITEM := "cur_line_item"
  const LINKED_ACCOUNT_SERVICE := "linked_account_service"
  const REGION_SERVICE := "region_service"

  /** What a record charges, and to whom. */
  datatype Charge = Charge(
    accountId: string,
    service: string,
    category: string,
    region: string,
    billingScopeType: string,
    billingScopeId: string,
    billingScopeName: string,
    currency: string,
    cost: real,
    tags: map<string, string>)

  /** The line of a CUR file that a record was read from. */
  datatype SourceLine = SourceLine(fileKey: string, lineNumber: nat, recordHash: string)

  /** A row of cost_records, with the columns that some query or constraint reads. */
  datatype CostRecord = CostRecord(
    timestamp: Time,
    provider: Provider,
    recordType: string,
    sourceObject: string,
    line: SourceLine,
    charge: Charge)

  predicate IsCur(r: CostRecord) { r.provider == AWS && r.recordType == CUR_LINE_ITEM }

  /** Position of an AWS record type in the precedence rules. */
  predicate IsAwsSummaryType(recordType: string) {
    recordType == LINKED_ACCOUNT_SERVICE || recordType == REGION_SERVICE || recordType == CUR_LINE_ITEM
  }

  /** The billing scope type that the writers of a record give it: AWS rows of the summary types are written for linked
      accounts, OCI rows without a scope type or, once migrated, for compartments, and no other provider is
      collected. */
  predicate ScopeAsWritten(r: CostRecord) {
    match r.provider
    case AWS => IsAwsSummaryType(r.recordType) ==> r.charge.billingScopeType == "linked_account"
    case OCI => r.charge.billingScopeType == "" || r.charge.billingScopeType == "compartment"
    case Other(_) => false
  }
}
