/** The records the backend receives: scans and issues. Severities and technologies are
    finite; a date field is the parsed instant, or None when it does not parse. */
module Domain {
  import opened Wrappers

  datatype Severity = Critical | High | Medium | Low | Unknown

  datatype Technology = DAST | SAST | SCA | IAST | UNKNOWN

  /** The recognised values of a scan's type field; any other text is Unrecognised. */
  datatype ScanType = DastScan | SastScan | ScaScan | IastScan | OtherScan | Unrecognised

  /** An instant (microseconds since the epoch) with the calendar fields its period
      keys are printed from. */
  datatype Stamp = Stamp(micros: int, year: nat, month: nat, isoYear: nat, isoWeek: nat)

  datatype Scan = Scan(
    id: string, scanType: ScanType, status: string,
    applicationId: string, applicationName: string, assetGroupId: string,
    createdAt: Option<Stamp>, pages: int, durationSeconds: real, size: real, execId: string)

  datatype Issue = Issue(
    id: string, severity: Severity, technology: Technology, status: string,
    applicationId: string, applicationName: string, assetGroupId: string,
    vulnerability: string, correlationKey: string, fixGroupId: string, fixGroupName: string,
    openedAt: Option<Stamp>)

  /** The technology a scan counts for; UNKNOWN for every other scan type. */
  function KindOf(scan: Scan): Technology
  {
    match scan.scanType
    case DastScan => DAST
    case SastScan => SAST
    case ScaScan => SCA
    case IastScan => IAST
    case OtherScan => UNKNOWN
    case Unrecognised => UNKNOWN
  }
}
