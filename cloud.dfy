/**
 * The cloud provider as the command-line client sees it: the storage objects of the
 * `compute_images` container, the machine images and the image lists of the compute
 * service. Each HTTP request the client issues is a member of `Server`; what the network
 * and the service do with a request, apart from the resource state, is given by a `Fate`.
 */
module Cloud {

  const OK := 200
  const CREATED := 201
  const NOT_FOUND := 404
  const CONFLICT := 409

  /** A machine-image descriptor, as POSTed to the machine-image endpoint. */
  datatype MachineImage = MachineImage(
    name: string,
    sizeTotal: int,
    noUpload: bool,
    account: string,
    file: string,
    platform: string)

  /** One entry of an image list: the machine images it names and its version. */
  datatype Entry = Entry(machineImages: seq<string>, version: int)

  datatype ImageList = ImageList(description: string, entries: seq<Entry>)

  /** The abstract state of the provider, keyed by resource name. */
  datatype State = State(
    objects: set<string>,
    machineImages: map<string, MachineImage>,
    imageLists: map<string, ImageList>)

  /** Error statuses a lookup (HEAD or GET) can answer with instead of 200 or 404. */
  type ReadFault = c: int | c != 200 && c != 404 witness 500

  /** Error statuses the machine-image POST can answer with instead of 201. */
  type CreateFault = c: int | c != 201 witness 500

  /** Error statuses the image-list and entry POSTs can answer with instead of 200. */
  type PostFault = c: int | c != 200 witness 500

  /**
   * What happens to one request: the service serves it from its state, or the request
   * fails with an error status and the state is not touched.
   */
  datatype Fate<E> = Serve | Fail(status: E)

  datatype Answer = Answer(status: int, state: State)

  /** The status of a lookup of a resource that is `present` or not. */
  function ReadStatus(present: bool, fate: Fate<ReadFault>): (status: int)
    ensures status == OK <==> fate.Serve? && present
    ensures status == NOT_FOUND <==> fate.Serve? && !present
    ensures fate.Fail? ==> status == fate.status
  {
    match fate
    case Serve => if present then OK else NOT_FOUND
    case Fail(code) => code
  }

  /** POST of a machine image: created when absent, refused with 409 when present. */
  function AddMachineImage(s: State, name: string, image: MachineImage, fate: Fate<CreateFault>): (a: Answer)
    ensures a.status == CREATED <==> fate.Serve? && name !in s.machineImages
    ensures a.status == CREATED ==> a.state == s.(machineImages := s.machineImages[name := image])
    ensures a.status != CREATED ==> a.state == s
  {
    match fate
    case Fail(code) => Answer(code, s)
    case Serve =>
      if name in s.machineImages then Answer(CONFLICT, s)
      else Answer(CREATED, s.(machineImages := s.machineImages[name := image]))
  }

  /** POST of an image list: an empty list is created when absent, 409 when present. */
  function AddImageList(s: State, name: string, description: string, fate: Fate<PostFault>): (a: Answer)
    ensures a.status == OK <==> fate.Serve? && name !in s.imageLists
    ensures a.status == OK ==> a.state == s.(imageLists := s.imageLists[name := ImageList(description, [])])
    ensures a.status != OK ==> a.state == s
  {
    match fate
    case Fail(code) => Answer(code, s)
    case Serve =>
      if name in s.imageLists then Answer(CONFLICT, s)
      else Answer(OK, s.(imageLists := s.imageLists[name := ImageList(description, [])]))
  }

  /** POST of an entry to an image list: appended at the end of an existing list, 404 otherwise. */
  function AppendEntry(s: State, listName: string, entry: Entry, fate: Fate<PostFault>): (a: Answer)
    ensures a.status == OK <==> fate.Serve? && listName in s.imageLists
    ensures a.status == OK ==>
      var list := s.imageLists[listName];
      a.state == s.(imageLists := s.imageLists[listName := list.(entries := list.entries + [entry])])
    ensures a.status != OK ==> a.state == s
  {
    match fate
    case Fail(code) => Answer(code, s)
    case Serve =>
      if listName !in s.imageLists then Answer(NOT_FOUND, s)
      else
        var list := s.imageLists[listName];
        Answer(OK, s.(imageLists := s.imageLists[listName := list.(entries := list.entries + [entry])]))
  }

  /**
   * The provider, whose resources the create requests change in place. Each method
   * realises the state function above it in place: HeadObject, GetMachineImage and
   * GetImageList answer by ReadStatus; the three POSTs follow AddMachineImage,
   * AddImageList and AppendEntry.
   */
  class Server {
    var objects: set<string>
    var machineImages: map<string, MachineImage>
    var imageLists: map<string, ImageList>

    function Model(): State
      reads this
    {
      State(objects, machineImages, imageLists)
    }

    /** HEAD of a storage object. */
    method HeadObject(path: string, fate: Fate<ReadFault>) returns (status: int)
      ensures status == ReadStatus(path in objects, fate)
    {
      match fate
      case Serve => status := if path in objects then OK else NOT_FOUND;
      case Fail(code) => status := code;
    }

    /** GET of a machine image. */
    method GetMachineImage(name: string, fate: Fate<ReadFault>) returns (status: int)
      ensures status == ReadStatus(name in machineImages, fate)
    {
      match fate
      case Serve => status := if name in machineImages then OK else NOT_FOUND;
      case Fail(code) => status := code;
    }

    /** GET of an image list; on 200 the body carries the list's entries. */
    method GetImageList(name: string, fate: Fate<ReadFault>) returns (status: int, entries: seq<Entry>)
      ensures status == ReadStatus(name in imageLists, fate)
      ensures entries == if status == OK then imageLists[name].entries else []
    {
      entries := [];
      match fate
      case Serve =>
        if name in imageLists {
          status, entries := OK, imageLists[name].entries;
        } else {
          status := NOT_FOUND;
        }
      case Fail(code) => status := code;
    }

    method PostMachineImage(name: string, image: MachineImage, fate: Fate<CreateFault>) returns (status: int)
      modifies this
      ensures Answer(status, Model()) == AddMachineImage(old(Model()), name, image, fate)
    {
      match fate
      case Fail(code) => status := code;
      case Serve =>
        if name in machineImages {
          status := CONFLICT;
        } else {
          machineImages := machineImages[name := image];
          status := CREATED;
        }
    }

    method PostImageList(name: string, description: string, fate: Fate<PostFault>) returns (status: int)
      modifies this
      ensures Answer(status, Model()) == AddImageList(old(Model()), name, description, fate)
    {
      match fate
      case Fail(code) => status := code;
      case Serve =>
        if name in imageLists {
          status := CONFLICT;
        } else {
          imageLists := imageLists[name := ImageList(description, [])];
          status := OK;
        }
    }

    method PostImageListEntry(listName: string, entry: Entry, fate: Fate<PostFault>) returns (status: int)
      modifies this
      ensures Answer(status, Model()) == AppendEntry(old(Model()), listName, entry, fate)
    {
      match fate
      case Fail(code) => status := code;
      case Serve =>
        if listName !in imageLists {
          status := NOT_FOUND;
        } else {
          var list := imageLists[listName];
          imageLists := imageLists[listName := list.(entries := list.entries + [entry])];
          status := OK;
        }
    }
  }
}
