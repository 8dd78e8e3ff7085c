/**
 * The device-shell remover: the site and then the shell are found by name
 * (`name` or `display_name`, trimmed and case-insensitive), the shell is
 * deleted, and the DELETE's status code is reported as success, accepted
 * or failed.
 */
module ShellDelete {
  import opened Wrappers
  import opened Json
  import Text
  import Inventory

  /** How the script reports the DELETE. */
  datatype DeleteReport = Deleted | Accepted | DeleteFailed(status: int)

  /** 200 and 204 are success, 202 is accepted, anything else failed. */
  function DeleteStatus(status: int): (r: DeleteReport)
    ensures r == Deleted <==> status == 200 || status == 204
    ensures r == Accepted <==> status == 202
    ensures r.DeleteFailed? <==> status != 200 && status != 204 && status != 202
    ensures r.DeleteFailed? ==> r.status == status
  {
    if status == 200 || status == 204 then Deleted
    else if status == 202 then Accepted
    else DeleteFailed(status)
  }

  /** What `main` ends with before the DELETE: an exit, a KeyError, what a lookup raised, or the site and shell ids. */
  datatype Target = Exit(what: string) | Missing(key: string) | Failed(error: string) | Found(siteId: Value, shellId: Value)

  /**
   * The two lookups of `main`: the site among `sites`, then the shell among
   * that site's shells (`shellsOf` stands for the per-site GET). A miss exits
   * naming what was not found; an object without `id` raises a KeyError, and
   * an unreadable entry reached by a lookup raises what `find_item` raises.
   */
  function DeleteTarget(sites: seq<Value>, shellsOf: Value -> seq<Value>, site: string, device: string): (r: Target)
    ensures Inventory.FindItem(sites, site, Inventory.ShellKeys) == Ok(None) <==> r == Exit("Site")
    ensures Inventory.FindItem(sites, site, Inventory.ShellKeys).Raise? ==> r == Failed("AttributeError")
    ensures var f := Inventory.FindItem(sites, site, Inventory.ShellKeys);
      f.Ok? && f.value.Some? && !Has(f.value.value, "id") ==> r == Missing("id")
    ensures var f := Inventory.FindItem(sites, site, Inventory.ShellKeys);
      f.Ok? && f.value.Some? && Has(f.value.value, "id") ==>
        var g := Inventory.FindItem(shellsOf(At(f.value.value, "id")), device, Inventory.ShellKeys);
        (g == Ok(None) <==> r == Exit("Device Shell")) &&
        (g.Raise? ==> r == Failed("AttributeError")) &&
        (g.Ok? && g.value.Some? && !Has(g.value.value, "id") ==> r == Missing("id")) &&
        (g.Ok? && g.value.Some? && Has(g.value.value, "id") ==> r == Found(At(f.value.value, "id"), At(g.value.value, "id")))
    ensures r.Found? ==> exists s, sh | s in sites && sh in shellsOf(r.siteId) ::
              Inventory.Matches(s, Text.Fold(site), Inventory.ShellKeys) && r.siteId == At(s, "id") &&
              Inventory.Matches(sh, Text.Fold(device), Inventory.ShellKeys) && r.shellId == At(sh, "id")
  {
    match Inventory.FindItem(sites, site, Inventory.ShellKeys)
    case Raise(e) => Failed(e)
    case Ok(None) => Exit("Site")
    case Ok(Some(s)) =>
      if !Has(s, "id") then Missing("id")
      else
        var siteId := At(s, "id");
        match Inventory.FindItem(shellsOf(siteId), device, Inventory.ShellKeys)
        case Raise(e) => Failed(e)
        case Ok(None) => Exit("Device Shell")
        case Ok(Some(sh)) =>
          if !Has(sh, "id") then Missing("id")
          else
            Found(siteId, At(sh, "id"))
  }
}
