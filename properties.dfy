/**
 * What one `create_image` run does to the provider's state, stated about the
 * specification `Compute.Provision` that `Compute.CreateImage` is proved to follow.
 */
module ProvisionProperties {
  import opened Cloud
  import opened Versions
  import opened Compute

  // Resource names

  /** Within one domain and user, the composite name determines the image name. */
  lemma CompositeNameInjective(domain: string, user: string, a: string, b: string)
    ensures CompositeName(domain, user, a) == CompositeName(domain, user, b) ==> a == b
  {
    var prefix := "/Compute-" + domain + "/" + user + "/";
    assert CompositeName(domain, user, a) == prefix + a;
    assert CompositeName(domain, user, b) == prefix + b;
    assert a == (prefix + a)[|prefix|..];
    assert b == (prefix + b)[|prefix|..];
  }

  /** The name the image-list POST carries is never a composite name of the same domain. */
  lemma ImageListNameNeverComposite(domain: string, user: string, imageName: string, user': string, imageName': string)
    ensures ImageListCreateName(domain, user, imageName) != CompositeName(domain, user', imageName')
  {
    var k := |"/Compute-" + domain|;
    assert ImageListCreateName(domain, user, imageName)[k] == ' ';
    assert CompositeName(domain, user', imageName')[k] == '/';
  }

  // The storage-object gate

  lemma MissingObjectExitsUnchanged(s: State, p: Profile, imageName: string, objectName: string, net: Network)
    requires net.headObject.Serve? && ObjectPath(p.identityDomain, objectName) !in s.objects
    ensures Provision(s, p, imageName, objectName, net) == Run(Exited(1), s)
  {
  }

  lemma ObjectCheckFailureExits(s: State, p: Profile, imageName: string, objectName: string, net: Network)
    requires net.headObject.Fail?
    ensures Provision(s, p, imageName, objectName, net) == Run(Exited(2), s)
  {
  }

  // The machine-image gate

  lemma ImageCheckFailureExits(s: State, p: Profile, imageName: string, objectName: string, net: Network)
    requires net.headObject.Serve? && ObjectPath(p.identityDomain, objectName) in s.objects
    requires net.getMachineImage.Fail?
    ensures Provision(s, p, imageName, objectName, net) == Run(Exited(3), s)
  {
  }

  /**
   * Once both checks are answered, the machine image exists at the end of the run,
   * unless its creation was refused and the run exited 1 with nothing changed.
   */
  lemma MachineImagePresentAfterStep(s: State, p: Profile, imageName: string, objectName: string, net: Network)
    requires net.headObject.Serve? && ObjectPath(p.identityDomain, objectName) in s.objects
    requires net.getMachineImage.Serve?
    ensures var r := Provision(s, p, imageName, objectName, net);
            CompositeName(p.identityDomain, p.user, imageName) in r.state.machineImages || r == Run(Exited(1), s)
  {
  }

  /** The state the image-list step starts from when both gates let the run through. */
  function WithMachineImage(s: State, p: Profile, imageName: string, objectName: string): State {
    var name := CompositeName(p.identityDomain, p.user, imageName);
    if name in s.machineImages then s
    else s.(machineImages := s.machineImages[name := MachineImageRequest(p, imageName, objectName)])
  }

  /** The object exists, the image check is answered and, if needed, the image is created. */
  predicate GatesPass(s: State, p: Profile, imageName: string, objectName: string, net: Network) {
    && net.headObject.Serve?
    && ObjectPath(p.identityDomain, objectName) in s.objects
    && net.getMachineImage.Serve?
    && (CompositeName(p.identityDomain, p.user, imageName) in s.machineImages || net.postMachineImage.Serve?)
  }

  lemma GatesLeadToImageList(s: State, p: Profile, imageName: string, objectName: string, net: Network)
    requires GatesPass(s, p, imageName, objectName, net)
    ensures Provision(s, p, imageName, objectName, net)
            == ImageListStep(WithMachineImage(s, p, imageName, objectName), p, imageName, net)
    ensures WithMachineImage(s, p, imageName, objectName).imageLists == s.imageLists
  {
  }

  // The image-list step

  /** The entry the run appends when the list has no entry for the image yet. */
  function NewEntry(p: Profile, imageName: string, entries: seq<Entry>): Entry {
    Entry([CompositeName(p.identityDomain, p.user, imageName)], LatestVersion(entries) + 1)
  }

  /** The first entry naming the image as its first machine image makes the run exit 5 and append nothing. */
  lemma DuplicateRejected(s: State, p: Profile, imageName: string, net: Network, k: nat)
    requires net.getImageList.Serve?
    requires CompositeName(p.identityDomain, p.user, imageName) in s.imageLists
    requires var es := s.imageLists[CompositeName(p.identityDomain, p.user, imageName)].entries;
             var name := CompositeName(p.identityDomain, p.user, imageName);
             && k < |es| && |es[k].machineImages| > 0 && es[k].machineImages[0] == name
             && forall j :: 0 <= j < k ==> |es[j].machineImages| > 0 && es[j].machineImages[0] != name
    ensures ImageListStep(s, p, imageName, net) == Run(Exited(5), s)
  {
    var name := CompositeName(p.identityDomain, p.user, imageName);
    FirstDuplicateReported(s.imageLists[name].entries, name, k);
  }

  /** An earlier entry without any machine image ends the run with an IndexError. */
  lemma EntryWithoutImageCrashes(s: State, p: Profile, imageName: string, net: Network, k: nat)
    requires net.getImageList.Serve?
    requires CompositeName(p.identityDomain, p.user, imageName) in s.imageLists
    requires var es := s.imageLists[CompositeName(p.identityDomain, p.user, imageName)].entries;
             && k < |es| && |es[k].machineImages| == 0
             && forall j :: 0 <= j < k ==> !Stops(es[j], CompositeName(p.identityDomain, p.user, imageName))
    ensures ImageListStep(s, p, imageName, net) == Run(Crashed, s)
  {
  }

  /**
   * When no entry stops the scan, exactly one entry is appended at the end of the list:
   * it names only the composite image name, and its version is one more than every
   * existing version (and at least 1). A refused POST exits 1 with nothing changed.
   */
  lemma NextVersionAppended(s: State, p: Profile, imageName: string, net: Network)
    requires net.getImageList.Serve?
    requires CompositeName(p.identityDomain, p.user, imageName) in s.imageLists
    requires var es := s.imageLists[CompositeName(p.identityDomain, p.user, imageName)].entries;
             forall k :: 0 <= k < |es| ==> !Stops(es[k], CompositeName(p.identityDomain, p.user, imageName))
    ensures var name := CompositeName(p.identityDomain, p.user, imageName);
            var list := s.imageLists[name];
            var r := ImageListStep(s, p, imageName, net);
            && (net.postEntry.Fail? ==> r == Run(Exited(1), s))
            && (net.postEntry.Serve? ==>
                  && r.outcome == Completed
                  && r.state == s.(imageLists := s.imageLists[name := list.(entries := list.entries + [NewEntry(p, imageName, list.entries)])]))
    ensures var es := s.imageLists[CompositeName(p.identityDomain, p.user, imageName)].entries;
            var v := NewEntry(p, imageName, es).version;
            v >= 1 && forall k :: 0 <= k < |es| ==> es[k].version < v
  {
    var name := CompositeName(p.identityDomain, p.user, imageName);
    var es := s.imageLists[name].entries;
    NextVersionExceedsAll(es, name);
  }

  /**
   * When the image list is not found, the run creates a list under the spaced name and
   * appends no entry. With the provider naming a new list by the name its request
   * carries, the list the run looks up is still missing afterwards.
   */
  lemma NotFoundCreatesListOnly(s: State, p: Profile, imageName: string, net: Network)
    requires net.getImageList.Serve?
    requires CompositeName(p.identityDomain, p.user, imageName) !in s.imageLists
    ensures var r := ImageListStep(s, p, imageName, net);
            var spaced := ImageListCreateName(p.identityDomain, p.user, imageName);
            && r.state.objects == s.objects
            && r.state.machineImages == s.machineImages
            && (r.outcome == Completed <==> net.postImageList.Serve? && spaced !in s.imageLists)
            && (r.outcome != Completed ==> r == Run(Exited(1), s))
            && (r.outcome == Completed ==> r.state.imageLists == s.imageLists[spaced := ImageList(imageName, [])])
            && CompositeName(p.identityDomain, p.user, imageName) !in r.state.imageLists
  {
    ImageListNameNeverComposite(p.identityDomain, p.user, imageName, p.user, imageName);
  }

  /** Any other status of the image-list lookup ends the run normally with nothing created. */
  lemma OtherStatusChangesNothing(s: State, p: Profile, imageName: string, net: Network)
    requires net.getImageList.Fail?
    ensures ImageListStep(s, p, imageName, net) == Run(Completed, s)
  {
  }

  // The whole run

  /**
   * Whatever the replies: the storage objects never change; the machine image is added
   * only when it was missing; and the image lists change by at most one new empty list
   * under the spaced name or one entry appended to the image's own list.
   */
  lemma ProvisionFrame(s: State, p: Profile, imageName: string, objectName: string, net: Network)
    ensures var r := Provision(s, p, imageName, objectName, net);
            var name := CompositeName(p.identityDomain, p.user, imageName);
            var spaced := ImageListCreateName(p.identityDomain, p.user, imageName);
            && r.state.objects == s.objects
            && (|| r.state.machineImages == s.machineImages
                || (&& name !in s.machineImages
                    && r.state.machineImages == s.machineImages[name := MachineImageRequest(p, imageName, objectName)]))
            && (|| r.state.imageLists == s.imageLists
                || (&& spaced !in s.imageLists
                    && r.state.imageLists == s.imageLists[spaced := ImageList(imageName, [])])
                || (&& name in s.imageLists
                    && var list := s.imageLists[name];
                       r.state.imageLists == s.imageLists[name := list.(entries := list.entries + [NewEntry(p, imageName, list.entries)])]))
  {
  }

  // Example runs

  const Alice := Profile("alice", "secret", "acme", "https://compute", "https://storage")
  const AllServed := Network(Serve, Serve, Serve, Serve, Serve, Serve)

  /** With the list holding [foo v1, bar v2], registering foo exits 5 and appends nothing. */
  lemma DuplicateScenario(s: State)
    requires ObjectPath("acme", "img.tar.gz") in s.objects
    requires CompositeName("acme", "alice", "foo") in s.machineImages
    requires s.imageLists == map[CompositeName("acme", "alice", "foo") :=
               ImageList("foo", [Entry([CompositeName("acme", "alice", "foo")], 1), Entry([CompositeName("acme", "alice", "bar")], 2)])]
    ensures Provision(s, Alice, "foo", "img.tar.gz", AllServed) == Run(Exited(5), s)
  {
    var foo := CompositeName("acme", "alice", "foo");
    assert Stops(s.imageLists[foo].entries[0], foo);
  }

  /** With the list holding [bar v3], registering foo appends foo as version 4. */
  lemma AppendScenario(s: State)
    requires ObjectPath("acme", "img.tar.gz") in s.objects
    requires CompositeName("acme", "alice", "foo") in s.machineImages
    requires s.imageLists == map[CompositeName("acme", "alice", "foo") :=
               ImageList("foo", [Entry([CompositeName("acme", "alice", "bar")], 3)])]
    ensures Provision(s, Alice, "foo", "img.tar.gz", AllServed).state.imageLists
            == map[CompositeName("acme", "alice", "foo") :=
                 ImageList("foo", [Entry([CompositeName("acme", "alice", "bar")], 3), Entry([CompositeName("acme", "alice", "foo")], 4)])]
  {
    var foo := CompositeName("acme", "alice", "foo");
    var bar := CompositeName("acme", "alice", "bar");
    CompositeNameInjective("acme", "alice", "foo", "bar");
    var es := s.imageLists[foo].entries;
    assert !Stops(es[0], foo);
    assert es[..0] == [];
    assert LatestVersion(es) == 3;
    assert Scan(es, foo) == Next(4);
    GatesLeadToImageList(s, Alice, "foo", "img.tar.gz", AllServed);
    assert es + [Entry([foo], 4)] == [Entry([bar], 3), Entry([foo], 4)];
  }

  /**
   * From an account with only the storage object, a run creates the machine image and an
   * empty list under the spaced name, and no entry. With the provider naming a new list by
   * the name its request carries, the list looked up is still missing, so a second run
   * again finds no list, tries to create the spaced one again and exits 1 on the 409.
   */
  lemma FreshScenario()
    ensures var s := State({ObjectPath("acme", "img.tar.gz")}, map[], map[]);
            var r := Provision(s, Alice, "foo", "img.tar.gz", AllServed);
            && r.outcome == Completed
            && r.state.machineImages == map[CompositeName("acme", "alice", "foo") := MachineImageRequest(Alice, "foo", "img.tar.gz")]
            && r.state.imageLists == map[ImageListCreateName("acme", "alice", "foo") := ImageList("foo", [])]
            && CompositeName("acme", "alice", "foo") !in r.state.imageLists
  {
    ImageListNameNeverComposite("acme", "alice", "foo", "alice", "foo");
  }

  lemma SecondFreshRunConflicts()
    ensures var s := State({ObjectPath("acme", "img.tar.gz")}, map[], map[]);
            var first := Provision(s, Alice, "foo", "img.tar.gz", AllServed);
            Provision(first.state, Alice, "foo", "img.tar.gz", AllServed) == Run(Exited(1), first.state)
  {
    FreshScenario();
  }
}
