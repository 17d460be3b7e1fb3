/** `isInstalled` of internal/service/firmware/plugin_data_source.go: whether OPNsense's
    firmware information lists a plugin package as installed. */
module FirmwarePlugin {
  import opened Framework

  /** A package entry of the firmware information; Installed is "1" for an installed one. */
  datatype Package = Package(name: string, installed: string)

  /** The answer for `pkg`: decided by the first entry with that name, false when none has it. */
  function InstalledIn(packages: seq<Package>, pkg: string): bool {
    if |packages| == 0 then false
    else if packages[0].name == pkg then packages[0].installed == "1"
    else InstalledIn(packages[1..], pkg)
  }

  const ReadErrorPrefix := "Unable to read firewall firmwarePlugin, got error: "

  /** `isInstalled`, given what `FirmwareInfo` returned: its error is reported, as text
      only, with `false`; otherwise the package list is scanned up to the first entry
      with the requested name. */
  method IsInstalled(info: Outcome<seq<Package>>, pkg: string) returns (installed: bool, err: Option<Error>)
    ensures info.Err? ==> !installed && err == Some(Describe(ReadErrorPrefix, info.error))
    ensures info.Ok? ==> err.None? && installed == InstalledIn(info.value, pkg)
  {
    if info.Err? {
      return false, Some(Describe(ReadErrorPrefix, info.error));
    }
    var packages := info.value;
    installed := false;
    var i := 0;
    while i < |packages|
      invariant 0 <= i <= |packages|
      invariant InstalledIn(packages[i..], pkg) == InstalledIn(packages, pkg)
      invariant !installed
    {
      assert packages[i..][1..] == packages[i + 1..];
      if packages[i].name == pkg {
        installed := packages[i].installed == "1";
        break;
      }
      i := i + 1;
    }
    return installed, None;
  }

  /** A package no entry names is not installed. */
  lemma {:induction false} UnlistedNotInstalled(packages: seq<Package>, pkg: string)
    requires forall i :: 0 <= i < |packages| ==> packages[i].name != pkg
    ensures !InstalledIn(packages, pkg)
  {
    if |packages| > 0 {
      UnlistedNotInstalled(packages[1..], pkg);
    }
  }

  /** The first entry with the name decides: installed exactly when its Installed is "1". */
  lemma {:induction false} FirstEntryDecides(packages: seq<Package>, pkg: string, i: nat)
    requires i < |packages| && packages[i].name == pkg
    requires forall j :: 0 <= j < i ==> packages[j].name != pkg
    ensures InstalledIn(packages, pkg) <==> packages[i].installed == "1"
  {
    if i > 0 {
      FirstEntryDecides(packages[1..], pkg, i - 1);
    }
  }

  /** Entries after a named one are ignored, whatever they say. */
  lemma {:induction false} LaterEntriesIgnored(front: seq<Package>, back: seq<Package>, pkg: string)
    requires exists i :: 0 <= i < |front| && front[i].name == pkg
    ensures InstalledIn(front + back, pkg) == InstalledIn(front, pkg)
  {
    if front[0].name != pkg {
      var i :| 0 <= i < |front| && front[i].name == pkg;
      assert front[1..][i - 1].name == pkg;
      assert (front + back)[1..] == front[1..] + back;
      LaterEntriesIgnored(front[1..], back, pkg);
    }
  }
}
