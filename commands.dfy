/**
 * The URL-building helpers of els_cli.go: each command the dispatcher can
 * invoke becomes one doCallAndRep call (a method, a URL relative to the API
 * root, and a body file name, "" meaning the pipe or no body).
 */
module Commands {
  datatype Command =
    | PutVendor(vendorID: string, src: string)
    | GetVendor(vendorID: string)
    | PutCloudProvider(cloudProviderID: string, src: string)
    | GetCloudProvider(cloudProviderID: string)
    | PutRuleset(vendorID: string, rulesetID: string, src: string)
    | ActivateRuleset(vendorID: string, rulesetID: string)
    | GetRuleset(vendorID: string, rulesetID: string)
    | ListRulesets(vendorID: string)
    | DeleteAccessKey(email: string, accessKeyID: string)
    | ListAccessKeys(email: string)
    | DoGet(path: string)                                 // doGetCommand
    | DoDelete(path: string)                              // doDeleteCommand
    | DoMethod(verb: string, path: string, src: string)   // doCommand

  /** The arguments of one doCallAndRep call. */
  datatype Call = Call(verb: string, url: string, srcFile: string)

  /** Commands that name a body file. */
  predicate CarriesBody(cmd: Command) {
    cmd.PutVendor? || cmd.PutCloudProvider? || cmd.PutRuleset? || cmd.DoMethod?
  }

  function Route(cmd: Command): (c: Call)
    ensures |c.url| > 0 && c.url[0] == '/'
    ensures CarriesBody(cmd) ==> c.srcFile == cmd.src
    ensures !CarriesBody(cmd) ==> c.srcFile == ""
    ensures cmd.DoGet? || cmd.DoDelete? || cmd.DoMethod? ==> c.url == "/" + cmd.path
    ensures cmd.DoMethod? ==> c.verb == cmd.verb
    ensures cmd.PutVendor? || cmd.PutCloudProvider? || cmd.PutRuleset? ==> c.verb == "PUT"
    ensures (|| cmd.GetVendor? || cmd.GetCloudProvider? || cmd.GetRuleset? || cmd.ListRulesets?
             || cmd.ListAccessKeys? || cmd.DoGet?) ==> c.verb == "GET"
    ensures cmd.ActivateRuleset? ==> c.verb == "PATCH"
    ensures cmd.DeleteAccessKey? || cmd.DoDelete? ==> c.verb == "DELETE"
  {
    match cmd
    case PutVendor(v, src) => Call("PUT", "/vendors/" + v, src)
    case GetVendor(v) => Call("GET", "/vendors/" + v, "")
    case PutCloudProvider(p, src) => Call("PUT", "/partners/" + p, src)
    case GetCloudProvider(p) => Call("GET", "/partners/" + p, "")
    case PutRuleset(v, r, src) => Call("PUT", "/vendors/" + v + "/paygRuleSets/" + r, src)
    case ActivateRuleset(v, r) => Call("PATCH", "/vendors/" + v + "/paygRuleSets/" + r + "/activate", "")
    case GetRuleset(v, r) => Call("GET", "/vendors/" + v + "/paygRuleSets/" + r, "")
    case ListRulesets(v) => Call("GET", "/vendors/" + v + "/paygRuleSets", "")
    case DeleteAccessKey(email, id) => Call("DELETE", "/users/" + email + "/accessKeys/" + id, "")
    case ListAccessKeys(email) => Call("GET", "/users/" + email + "/accessKeys", "")
    case DoGet(path) => Call("GET", "/" + path, "")
    case DoDelete(path) => Call("DELETE", "/" + path, "")
    case DoMethod(verb, path, src) => Call(verb, "/" + path, src)
  }

  /** A vendor's or cloud provider's URL names it: distinct IDs are sent to distinct URLs. */
  lemma RoutesNameTheirResource(id: string, id': string)
    requires id != id'
    ensures Route(GetVendor(id)).url != Route(GetVendor(id')).url
    ensures Route(GetCloudProvider(id)).url != Route(GetCloudProvider(id')).url
    ensures Route(ListAccessKeys(id)).url != Route(ListAccessKeys(id')).url
  {
    var v, p, u := "/vendors/", "/partners/", "/users/";
    assert (v + id)[|v|..] == id && (v + id')[|v|..] == id';
    assert (p + id)[|p|..] == id && (p + id')[|p|..] == id';
    assert (u + id + "/accessKeys")[|u|..|u| + |id|] == id;
    assert (u + id' + "/accessKeys")[|u|..|u| + |id'|] == id';
  }

  /** A resource is written and read back at one URL: vendors, cloud providers and rulesets. */
  lemma PutAndGetShareURL(id: string, rulesetID: string, src: string)
    ensures Route(PutVendor(id, src)).url == Route(GetVendor(id)).url
    ensures Route(PutCloudProvider(id, src)).url == Route(GetCloudProvider(id)).url
    ensures Route(PutRuleset(id, rulesetID, src)).url == Route(GetRuleset(id, rulesetID)).url
  {
  }

  /**
   * A ruleset lives under its vendor's ruleset list, and activating it
   * patches a sub-resource of it; an access key lives under its user's list.
   */
  lemma NestedResources(vendorID: string, rulesetID: string, email: string, accessKeyID: string)
    ensures Route(ListRulesets(vendorID)).url + "/" + rulesetID == Route(GetRuleset(vendorID, rulesetID)).url
    ensures Route(GetRuleset(vendorID, rulesetID)).url + "/activate" == Route(ActivateRuleset(vendorID, rulesetID)).url
    ensures Route(ListAccessKeys(email)).url + "/" + accessKeyID == Route(DeleteAccessKey(email, accessKeyID)).url
  {
  }
}
