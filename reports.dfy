/**
 * The record types of the customer EULA licence infringement listing
 * (els_cli.go), as json.Unmarshal fills them from one page of the response.
 */
module Reports {
  /** EULAInfringement. */
  datatype Infringement = Infringement(
    eulaPeriod: string,
    year: int,
    month: int,
    eulaPolicyID: string,
    vendorID: string,
    featureID: string,
    licenseSetID: string,
    licenseIndex: int,
    numUsers: int)

  /** CustomerEULAInfringements: one customer's infringements in a period. */
  datatype CustomerInfringements = CustomerInfringements(
    elsCustomerID: string,
    vendorCustomerID: string,
    infringements: seq<Infringement>)

  /** CustomerEULAInfringementsResponse: one page; an empty cursor marks the last page. */
  datatype InfringementsPage = InfringementsPage(cursor: string, customerInfringements: seq<CustomerInfringements>)
}
