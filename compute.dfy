/**
 * The image-provisioning part of the compute client: resource names, the two existence
 * checks, the three create requests and `create_image`, which chains them. A process exit
 * of the client is an `Exited` outcome; the requests go to a `Cloud.Server`.
 */
module Compute {
  import opened Cloud
  import opened Versions

  /** The account record read from the profile file. */
  datatype Profile = Profile(
    user: string,
    password: string,
    identityDomain: string,
    computeEndpoint: string,
    storageEndpoint: string)

  /** What an existence check reports, or the exit code it terminates with. */
  datatype Existence = Found | NotFound | Exit(code: int)

  /** How a run ends: it returns, exits with a code, or dies on an uncaught IndexError. */
  datatype Outcome = Completed | Exited(code: int) | Crashed

  /** The fate of each of the six requests one `create_image` run can issue. */
  datatype Network = Network(
    headObject: Fate<ReadFault>,
    getMachineImage: Fate<ReadFault>,
    postMachineImage: Fate<CreateFault>,
    getImageList: Fate<ReadFault>,
    postImageList: Fate<PostFault>,
    postEntry: Fate<PostFault>)

  datatype Run = Run(outcome: Outcome, state: State)

  // Resource names

  /** The name of the user's machine image, image list and entry reference for `imageName`. */
  function CompositeName(domain: string, user: string, imageName: string): (n: string)
    ensures |n| == 11 + |domain| + |user| + |imageName|
    ensures n[..9] == "/Compute-" && n[9 + |domain|] == '/'
    ensures n[|n| - |imageName|..] == imageName
  {
    "/Compute-" + domain + "/" + user + "/" + imageName
  }

  /** The name the image-list POST carries: it has a space on each side of the first slash. */
  function ImageListCreateName(domain: string, user: string, imageName: string): (n: string)
    ensures |n| == 13 + |domain| + |user| + |imageName|
    ensures n[..9] == "/Compute-" && n[9 + |domain|..12 + |domain|] == " / "
    ensures n[|n| - |imageName|..] == imageName
  {
    "/Compute-" + domain + " / " + user + "/" + imageName
  }

  /** The path of an object in the domain's `compute_images` storage container. */
  function ObjectPath(domain: string, objectName: string): (path: string)
    ensures |path| == 25 + |domain| + |objectName|
    ensures path[..9] == "/Storage-"
    ensures path[|path| - |objectName|..] == objectName
  {
    "/Storage-" + domain + "/compute_images/" + objectName
  }

  /** The descriptor `create_machineimage` sends; the platform is always "windows". */
  function MachineImageRequest(p: Profile, imageName: string, objectName: string): (image: MachineImage)
    ensures image.name == CompositeName(p.identityDomain, p.user, imageName)
    ensures image.file == objectName && image.platform == "windows"
    ensures image.sizeTotal == 0 && image.noUpload
  {
    MachineImage(
      name := CompositeName(p.identityDomain, p.user, imageName),
      sizeTotal := 0,
      noUpload := true,
      account := "/Compute-" + p.identityDomain + "/cloud_storage",
      file := objectName,
      platform := "windows")
  }

  // Status classification

  function StorageObjectExistence(status: int): (r: Existence)
    ensures r == Found <==> status == OK
    ensures r == NotFound <==> status == NOT_FOUND
    ensures r.Exit? <==> status != OK && status != NOT_FOUND
    ensures r.Exit? ==> r.code == 2
  {
    if status == NOT_FOUND then NotFound
    else if status == OK then Found
    else Exit(2)
  }

  function MachineImageExistence(status: int): (r: Existence)
    ensures r == Found <==> status == OK
    ensures r == NotFound <==> status == NOT_FOUND
    ensures r.Exit? <==> status != OK && status != NOT_FOUND
    ensures r.Exit? ==> r.code == 3
  {
    if status == OK then Found
    else if status == NOT_FOUND then NotFound
    else Exit(3)
  }

  // The behaviour of one `create_image` run on an abstract state

  /** The image-list part of `create_image`, from the state reached after the machine-image step. */
  function ImageListStep(s: State, p: Profile, imageName: string, net: Network): (r: Run)
    ensures r.state.objects == s.objects && r.state.machineImages == s.machineImages
    ensures r.outcome.Exited? ==> r.outcome.code == 1 || r.outcome.code == 5
    ensures r.outcome != Completed ==> r.state == s
  {
    var name := CompositeName(p.identityDomain, p.user, imageName);
    var status := ReadStatus(name in s.imageLists, net.getImageList);
    if status == OK then
      match Scan(s.imageLists[name].entries, name)
      case AlreadyPresent(_) => Run(Exited(5), s)
      case MissingImage => Run(Crashed, s)
      case Next(v) =>
        var a := AppendEntry(s, name, Entry([name], v), net.postEntry);
        Run(if a.status == OK then Completed else Exited(1), a.state)
    else if status == NOT_FOUND then
      var a := AddImageList(s, ImageListCreateName(p.identityDomain, p.user, imageName), imageName, net.postImageList);
      Run(if a.status == OK then Completed else Exited(1), a.state)
    else
      Run(Completed, s)
  }

  /** One `create_image` run from state `s`: how it ends and the provider's state afterwards. */
  function Provision(s: State, p: Profile, imageName: string, objectName: string, net: Network): (r: Run)
    ensures r.state.objects == s.objects
    ensures r.outcome.Exited? ==> r.outcome.code in {1, 2, 3, 5}
    ensures r.outcome.Exited? && r.outcome.code != 1 ==> r.state.imageLists == s.imageLists
  {
    var name := CompositeName(p.identityDomain, p.user, imageName);
    match StorageObjectExistence(ReadStatus(ObjectPath(p.identityDomain, objectName) in s.objects, net.headObject))
    case Exit(c) => Run(Exited(c), s)
    case NotFound => Run(Exited(1), s)
    case Found =>
      match MachineImageExistence(ReadStatus(name in s.machineImages, net.getMachineImage))
      case Exit(c) => Run(Exited(c), s)
      case Found => ImageListStep(s, p, imageName, net)
      case NotFound =>
        var a := AddMachineImage(s, name, MachineImageRequest(p, imageName, objectName), net.postMachineImage);
        if a.status != CREATED then Run(Exited(1), a.state)
        else ImageListStep(a.state, p, imageName, net)
  }

  // The client's requests

  method StorageObjectExist(server: Server, p: Profile, objectName: string, fate: Fate<ReadFault>)
    returns (r: Existence)
    ensures r == Found <==> fate.Serve? && ObjectPath(p.identityDomain, objectName) in server.objects
    ensures r == NotFound <==> fate.Serve? && ObjectPath(p.identityDomain, objectName) !in server.objects
    ensures r.Exit? <==> fate.Fail?
    ensures r.Exit? ==> r.code == 2
  {
    var status := server.HeadObject(ObjectPath(p.identityDomain, objectName), fate);
    r := StorageObjectExistence(status);
  }

  method MachineImageExist(server: Server, p: Profile, imageName: string, fate: Fate<ReadFault>)
    returns (r: Existence)
    ensures r == Found <==> fate.Serve? && CompositeName(p.identityDomain, p.user, imageName) in server.machineImages
    ensures r == NotFound <==> fate.Serve? && CompositeName(p.identityDomain, p.user, imageName) !in server.machineImages
    ensures r.Exit? <==> fate.Fail?
    ensures r.Exit? ==> r.code == 3
  {
    var status := server.GetMachineImage(CompositeName(p.identityDomain, p.user, imageName), fate);
    r := MachineImageExistence(status);
  }

  method CreateMachineImage(server: Server, p: Profile, imageName: string, objectName: string, fate: Fate<CreateFault>)
    returns (o: Outcome)
    modifies server
    ensures var a := AddMachineImage(old(server.Model()), CompositeName(p.identityDomain, p.user, imageName),
                                     MachineImageRequest(p, imageName, objectName), fate);
            server.Model() == a.state && o == (if a.status == CREATED then Completed else Exited(1))
  {
    var status := server.PostMachineImage(CompositeName(p.identityDomain, p.user, imageName),
                                          MachineImageRequest(p, imageName, objectName), fate);
    o := if status != CREATED then Exited(1) else Completed;
  }

  method CreateImageList(server: Server, p: Profile, imageName: string, fate: Fate<PostFault>)
    returns (o: Outcome)
    modifies server
    ensures var a := AddImageList(old(server.Model()), ImageListCreateName(p.identityDomain, p.user, imageName),
                                  imageName, fate);
            server.Model() == a.state && o == (if a.status == OK then Completed else Exited(1))
  {
    var status := server.PostImageList(ImageListCreateName(p.identityDomain, p.user, imageName), imageName, fate);
    o := if status != OK then Exited(1) else Completed;
  }

  method CreateImageListEntry(server: Server, p: Profile, imageName: string, version: int, fate: Fate<PostFault>)
    returns (o: Outcome)
    modifies server
    ensures var name := CompositeName(p.identityDomain, p.user, imageName);
            var a := AppendEntry(old(server.Model()), name, Entry([name], version), fate);
            server.Model() == a.state && o == (if a.status == OK then Completed else Exited(1))
  {
    var name := CompositeName(p.identityDomain, p.user, imageName);
    var status := server.PostImageListEntry(name, Entry([name], version), fate);
    o := if status != OK then Exited(1) else Completed;
  }

  /** The version-selection loop of `create_image` over the entries of the image list. */
  method LatestVersionScan(entries: seq<Entry>, target: string) returns (r: ScanResult)
    ensures r == Scan(entries, target)
  {
    var latest := 0;
    var i := 0;
    while i < |entries|
      invariant 0 <= i <= |entries|
      invariant latest == LatestVersion(entries[..i])
      invariant forall k :: 0 <= k < i ==> !Stops(entries[k], target)
    {
      var e := entries[i];
      assert entries[..i + 1][..i] == entries[..i];
      if e.version > latest {
        latest := e.version;
      }
      if |e.machineImages| == 0 {
        return MissingImage;
      }
      if e.machineImages[0] == target {
        return AlreadyPresent(e.version);
      }
      i := i + 1;
    }
    assert entries[..i] == entries;
    r := Next(latest + 1);
  }

  method CreateImage(server: Server, p: Profile, imageName: string, objectName: string, net: Network)
    returns (o: Outcome)
    modifies server
    ensures Run(o, server.Model()) == Provision(old(server.Model()), p, imageName, objectName, net)
  {
    var objectFound := StorageObjectExist(server, p, objectName, net.headObject);
    if objectFound.Exit? {
      return Exited(objectFound.code);
    }
    if objectFound.NotFound? {
      return Exited(1);
    }
    var imageFound := MachineImageExist(server, p, imageName, net.getMachineImage);
    if imageFound.Exit? {
      return Exited(imageFound.code);
    }
    if imageFound.NotFound? {
      var created := CreateMachineImage(server, p, imageName, objectName, net.postMachineImage);
      if created.Exited? {
        return created;
      }
    }
    var name := CompositeName(p.identityDomain, p.user, imageName);
    var status, entries := server.GetImageList(name, net.getImageList);
    if status == OK {
      var scan := LatestVersionScan(entries, name);
      match scan
      case AlreadyPresent(_) =>
        return Exited(5);
      case MissingImage =>
        return Crashed;
      case Next(nextVersion) =>
        o := CreateImageListEntry(server, p, imageName, nextVersion, net.postEntry);
    } else if status == NOT_FOUND {
      o := CreateImageList(server, p, imageName, net.postImageList);
    } else {
      o := Completed;
    }
  }
}
