/** The room registry of the broadcaster: the records declared in include/broadcaster.hpp
    and the `Broadcaster` class of src/broadcaster.cpp, with the relay's answers passed in
    as parameters. */
module Registry {
  import opened Wrappers
  import opened OrderedKeys
  import opened Relay

  /** The five reader URLs of a room, one per transport. */
  datatype Urls = Urls(rtsp: string, rtmp: string, hls: string, webrtc: string, srt: string)

  /** A reader connected to a room through the relay (`type` in the source). */
  datatype Client = Client(id: string, kind: string)

  /** The public projection of a room returned by `get_rooms`. */
  datatype Room = Room(path: string, title: string, description: string, maxReaders: int,
                       urls: Urls, hasAudioDataProvider: bool, hasTextDataProvider: bool)

  /** Identities of the caller's callbacks; what they compute is outside the registry. */
  datatype AudioProvider = AudioProvider(handle: nat)
  datatype TextProvider = TextProvider(handle: nat)

  /** A push session, by the arguments it was constructed with. */
  datatype Pusher = Pusher(rtspUrl: string, provider: AudioProvider, audioFormat: nat,
                           chunkSize: int, sampleRate: int)

  /** What the registry keeps per path. */
  datatype RoomData = RoomData(title: string, description: string, maxReaders: int, urls: Urls,
                               pusher: Option<Pusher>, textProvider: Option<TextProvider>)

  /** How constructing and starting a new push session turns out. */
  datatype PipelineStatus = Started | BuildFails | StartFails

  /** The answer of `GET /v1/rooms/<path>/text`. */
  datatype TextReply = NotFound(status: int, errorMessage: string) | TextData(data: string)

  const DEFAULT_CHUNK_SIZE: int := 1024
  const DEFAULT_SAMPLE_RATE: int := 44100
  /** Push sessions always stream to the relay on the local host, whatever the urls say. */
  const PUSH_URL_PREFIX: string := "rtsp://localhost:8554/"
  const HLS_SUFFIX: string := "/index.m3u8"
  const ROOM_NOT_FOUND: string := "Room does not exist"

  // ---------------------------------------------------------------------------------------
  // URL derivation

  /** The global configuration carries all five address prefixes as strings. */
  predicate HasAllPrefixes(conf: GlobalConf) {
    && conf.GlobalConf?
    && conf.rtspAddress.Str? && conf.rtmpAddress.Str? && conf.hlsAddress.Str?
    && conf.webrtcAddress.Str? && conf.srtAddress.Str?
  }

  /** The room's URLs from the relay host, the configured address prefixes and the path. */
  function DeriveUrls(host: string, conf: GlobalConf, path: string): (r: Result<Urls, Failure>)
    ensures r.Ok? <==> HasAllPrefixes(conf)
    ensures r.Err? ==> r.error == InvalidJson
    ensures r.Ok? ==>
      && r.value.rtsp == "rtsp://" + host + conf.rtspAddress.s + "/" + path
      && r.value.rtmp == "rtmp://" + host + conf.rtmpAddress.s + "/" + path
      && r.value.hls == "http://" + host + conf.hlsAddress.s + "/" + path + HLS_SUFFIX
      && r.value.webrtc == "http://" + host + conf.webrtcAddress.s + "/" + path
      && r.value.srt == "srt://" + host + conf.srtAddress.s + "?streamid=read:" + path
  {
    if !HasAllPrefixes(conf) then Err(InvalidJson)
    else
      var rtspPrefix := "rtsp://" + host + conf.rtspAddress.s + "/";
      var rtmpPrefix := "rtmp://" + host + conf.rtmpAddress.s + "/";
      var hlsPrefix := "http://" + host + conf.hlsAddress.s + "/";
      var webrtcPrefix := "http://" + host + conf.webrtcAddress.s + "/";
      var srtPrefix := "srt://" + host + conf.srtAddress.s + "?streamid=read:";
      Ok(Urls(rtspPrefix + path, rtmpPrefix + path, hlsPrefix + path + HLS_SUFFIX,
              webrtcPrefix + path, srtPrefix + path))
  }

  lemma PrefixCancels(a: string, p: string, q: string)
    requires a + p == a + q
    ensures p == q
  {
    assert p == (a + p)[|a|..];
    assert q == (a + q)[|a|..];
  }

  /** Under one relay configuration, each of the five URLs determines the room's path:
      two rooms never share a reader URL. */
  lemma UrlsIdentifyPath(host: string, conf: GlobalConf, p: string, q: string)
    requires HasAllPrefixes(conf)
    ensures DeriveUrls(host, conf, p).value.rtsp == DeriveUrls(host, conf, q).value.rtsp ==> p == q
    ensures DeriveUrls(host, conf, p).value.rtmp == DeriveUrls(host, conf, q).value.rtmp ==> p == q
    ensures DeriveUrls(host, conf, p).value.webrtc == DeriveUrls(host, conf, q).value.webrtc ==> p == q
    ensures DeriveUrls(host, conf, p).value.srt == DeriveUrls(host, conf, q).value.srt ==> p == q
    ensures DeriveUrls(host, conf, p).value.hls == DeriveUrls(host, conf, q).value.hls ==> p == q
  {
    var u, v := DeriveUrls(host, conf, p).value, DeriveUrls(host, conf, q).value;
    if u.rtsp == v.rtsp {
      PrefixCancels("rtsp://" + host + conf.rtspAddress.s + "/", p, q);
    }
    if u.rtmp == v.rtmp {
      PrefixCancels("rtmp://" + host + conf.rtmpAddress.s + "/", p, q);
    }
    if u.webrtc == v.webrtc {
      PrefixCancels("http://" + host + conf.webrtcAddress.s + "/", p, q);
    }
    if u.srt == v.srt {
      PrefixCancels("srt://" + host + conf.srtAddress.s + "?streamid=read:", p, q);
    }
    if u.hls == v.hls {
      var a := "http://" + host + conf.hlsAddress.s + "/";
      assert a + p == u.hls[..|u.hls| - |HLS_SUFFIX|];
      assert a + q == v.hls[..|v.hls| - |HLS_SUFFIX|];
      PrefixCancels(a, p, q);
    }
  }

  /** With the relay's default rtsp prefix ":8554" on host "localhost", room "room1" is
      read at exactly "rtsp://localhost:8554/room1". */
  lemma RtspUrlExample(conf: GlobalConf)
    requires HasAllPrefixes(conf) && conf.rtspAddress == Str(":8554")
    ensures DeriveUrls("localhost", conf, "room1").value.rtsp == "rtsp://localhost:8554/room1"
  {
  }

  // ---------------------------------------------------------------------------------------
  // Room creation on the relay

  /** What `create_new_room` does once it knows the path is new: the `max_readers` check,
      `POST /v3/config/paths/add/<path>` (200 or 400 "already exists" both accepted),
      `GET /v3/config/global/get`, and the URL derivation; the first failure wins. */
  function Provision(host: string, path: string, maxReaders: int,
                     addReply: Reply<()>, confReply: Reply<GlobalConf>): (r: Result<Urls, Failure>)
    ensures maxReaders < 0 ==> r == Err(InvalidArgument)
    ensures maxReaders >= 0 && addReply.Unreachable? ==> r == Err(HttpError)
    ensures (maxReaders >= 0 && addReply.Replied? && addReply.status != OK_200
             && addReply.status != BAD_REQUEST_400) ==> r == Err(StatusError(addReply.status))
    ensures r.Ok? <==>
      && maxReaders >= 0
      && addReply.Replied? && (addReply.status == OK_200 || addReply.status == BAD_REQUEST_400)
      && confReply.Replied? && confReply.status == OK_200
      && HasAllPrefixes(confReply.body)
    ensures r.Ok? ==> r == DeriveUrls(host, confReply.body, path)
  {
    if maxReaders < 0 then Err(InvalidArgument)
    else match addReply
      case Unreachable => Err(HttpError)
      case Replied(status, _) =>
        if status != OK_200 && status != BAD_REQUEST_400 then Err(StatusError(status))
        else match CheckOk(confReply)
          case Fail(e) => Err(e)
          case Pass => DeriveUrls(host, confReply.body, path)
  }

  /** A relay that says the path already exists (400) is as good as one that adds it. */
  lemma AlreadyOnRelayIsSuccess(host: string, path: string, maxReaders: int, confReply: Reply<GlobalConf>)
    ensures Provision(host, path, maxReaders, Replied(BAD_REQUEST_400, ()), confReply)
         == Provision(host, path, maxReaders, Replied(OK_200, ()), confReply)
  {
  }

  // ---------------------------------------------------------------------------------------
  // Connected clients: the filter over `GET /v3/paths/list`

  predicate WellFormedReaders(readers: seq<ReaderEntry>) {
    forall k :: 0 <= k < |readers| ==> readers[k].id.Str? && readers[k].kind.Str?
  }

  /** The readers of one path item as clients, in list order; a reader without a string
      `id` or `type` makes the whole payload invalid. */
  function ReadersToClients(readers: seq<ReaderEntry>): (r: Result<seq<Client>, Failure>)
    ensures r.Ok? <==> WellFormedReaders(readers)
    ensures r.Err? ==> r.error == InvalidJson
    ensures r.Ok? ==> |r.value| == |readers|
    ensures r.Ok? ==> forall k :: 0 <= k < |readers| ==>
                        r.value[k] == Client(readers[k].id.s, readers[k].kind.s)
    decreases |readers|
  {
    if readers == [] then Ok([])
    else if !readers[0].id.Str? || !readers[0].kind.Str? then Err(InvalidJson)
    else match ReadersToClients(readers[1..])
      case Err(e) => Err(e)
      case Ok(rest) => Ok([Client(readers[0].id.s, readers[0].kind.s)] + rest)
  }

  /** The item's name is there and is not the path: the scan goes on past it. A name
      that is not a string never equals the path. */
  predicate Skips(item: PathItem, path: string) {
    item.name.NotString? || (item.name.Str? && item.name.s != path)
  }

  /** The scan of the items: stop at the first item named `path` and take its readers;
      an item without a name before that point is an error. */
  function FindClients(items: seq<PathItem>, path: string): Result<seq<Client>, Failure>
    decreases |items|
  {
    if items == [] then Ok([])
    else match items[0].name
      case Missing => Err(InvalidJson)
      case NotString => FindClients(items[1..], path)
      case Str(name) =>
        if name != path then FindClients(items[1..], path)
        else if items[0].readers.None? then Err(InvalidJson)
        else ReadersToClients(items[0].readers.value)
  }

  /** `get_connected_clients(path)` given the reply to `GET /v3/paths/list`. */
  function ConnectedClients(path: string, reply: Reply<PathsDoc>): Result<seq<Client>, Failure>
  {
    match reply
    case Unreachable => Err(HttpError)
    case Replied(status, doc) =>
      if status != OK_200 then Err(StatusError(status))
      else if doc.UnparsablePaths? || doc.items.None? then Err(InvalidJson)
      else FindClients(doc.items.value, path)
  }

  /** The clients are the readers of the FIRST item named `path`: what follows it is
      never looked at. */
  lemma {:induction false} FindFirstMatch(items: seq<PathItem>, path: string, i: nat)
    requires i < |items| && items[i].name == Str(path)
    requires forall j :: 0 <= j < i ==> Skips(items[j], path)
    ensures FindClients(items, path) ==
      if items[i].readers.None? then Err(InvalidJson) else ReadersToClients(items[i].readers.value)
    decreases i
  {
    if i > 0 {
      assert Skips(items[0], path);
      FindFirstMatch(items[1..], path, i - 1);
    }
  }

  /** A path the relay does not list has no clients. */
  lemma {:induction false} FindNoMatch(items: seq<PathItem>, path: string)
    requires forall j :: 0 <= j < |items| ==> Skips(items[j], path)
    ensures FindClients(items, path) == Ok([])
    decreases |items|
  {
    if items != [] {
      assert Skips(items[0], path);
      FindNoMatch(items[1..], path);
    }
  }

  /** An item without a name, met before the path's own item, makes the payload invalid. */
  lemma {:induction false} FindMissingName(items: seq<PathItem>, path: string, i: nat)
    requires i < |items| && items[i].name.Missing?
    requires forall j :: 0 <= j < i ==> Skips(items[j], path)
    ensures FindClients(items, path) == Err(InvalidJson)
    decreases i
  {
    if i > 0 {
      assert Skips(items[0], path);
      FindMissingName(items[1..], path, i - 1);
    }
  }

  /** For the listing `{items: [{name: "p", readers: [{id: "a", type: "rtspSession"}]}]}`,
      the clients of "p" are `[{a, rtspSession}]` and those of any other path are none. */
  lemma ConnectedClientsExample(other: string)
    requires other != "p"
    ensures var doc := PathsDoc(Some([PathItem(Str("p"), Some([ReaderEntry(Str("a"), Str("rtspSession"))]))]));
            && ConnectedClients("p", Replied(OK_200, doc)) == Ok([Client("a", "rtspSession")])
            && ConnectedClients(other, Replied(OK_200, doc)) == Ok([])
  {
    var readers := [ReaderEntry(Str("a"), Str("rtspSession"))];
    assert WellFormedReaders(readers);
    assert ReadersToClients(readers).value == [Client("a", "rtspSession")];
  }

  // ---------------------------------------------------------------------------------------
  // Kicking a client

  const RTSP_SESSION: string := "rtspSession"
  const RTMP_CONN: string := "rtmpConn"
  const WEBRTC_SESSION: string := "webrtcSession"
  const SRT_CONN: string := "srtConn"

  predicate KnownKind(kind: string) {
    kind == RTSP_SESSION || kind == RTMP_CONN || kind == WEBRTC_SESSION || kind == SRT_CONN
  }

  /** The relay endpoint that kicks a reader of the given transport type; none for a
      type the broadcaster does not know. */
  function KickEndpoint(kind: string, clientId: string): (r: Option<string>)
    ensures r.Some? <==> KnownKind(kind)
    ensures kind == RTSP_SESSION ==> r == Some("/v3/rtspsessions/kick/" + clientId)
    ensures kind == RTMP_CONN ==> r == Some("/v3/rtmpconns/kick/" + clientId)
    ensures kind == WEBRTC_SESSION ==> r == Some("/v3/webrtcsessions/kick/" + clientId)
    ensures kind == SRT_CONN ==> r == Some("/v3/srtconns/kick/" + clientId)
  {
    if kind == RTSP_SESSION then Some("/v3/rtspsessions/kick/" + clientId)
    else if kind == RTMP_CONN then Some("/v3/rtmpconns/kick/" + clientId)
    else if kind == WEBRTC_SESSION then Some("/v3/webrtcsessions/kick/" + clientId)
    else if kind == SRT_CONN then Some("/v3/srtconns/kick/" + clientId)
    else None
  }

  /** Different transport types are kicked through different endpoints, and the endpoint
      names the client it kicks. */
  lemma KickEndpointsDistinct(k1: string, k2: string, id1: string, id2: string)
    requires KnownKind(k1) && KnownKind(k2)
    ensures KickEndpoint(k1, id1) == KickEndpoint(k2, id2) ==> k1 == k2 && id1 == id2
  {
    var e1, e2 := KickEndpoint(k1, id1).value, KickEndpoint(k2, id2).value;
    if e1 == e2 {
      // the four prefixes differ at index 4 or 6, so equal endpoints have equal types
      assert e1[4] == e2[4] && e1[6] == e2[6];
      assert k1 == k2;
      if k1 == RTSP_SESSION { PrefixCancels("/v3/rtspsessions/kick/", id1, id2); }
      if k1 == RTMP_CONN { PrefixCancels("/v3/rtmpconns/kick/", id1, id2); }
      if k1 == WEBRTC_SESSION { PrefixCancels("/v3/webrtcsessions/kick/", id1, id2); }
      if k1 == SRT_CONN { PrefixCancels("/v3/srtconns/kick/", id1, id2); }
    }
  }

  /** The first client with the given id, in list order. */
  function FirstWithId(clients: seq<Client>, id: string): (r: Option<Client>)
    ensures r.None? <==> forall k :: 0 <= k < |clients| ==> clients[k].id != id
    ensures r.Some? ==> exists k :: 0 <= k < |clients| && clients[k] == r.value && r.value.id == id
                                    && forall j :: 0 <= j < k ==> clients[j].id != id
    decreases |clients|
  {
    if clients == [] then None
    else if clients[0].id == id then Some(clients[0])
    else
      var r := FirstWithId(clients[1..], id);
      if r.Some? then
        ghost var k :| 0 <= k < |clients| - 1 && clients[1..][k] == r.value && r.value.id == id
                       && forall j :: 0 <= j < k ==> clients[1..][j].id != id;
        assert clients[k + 1] == r.value && forall j :: 0 <= j < k + 1 ==> clients[j].id != id;
        r
      else r
  }

  /** The kick request for one client: no request at all (hence an `HttpError`) for an
      unknown type, otherwise the relay's answer must be 200. */
  function KickRequest(kind: string, clientId: string, kick: string -> Reply<()>): Outcome<Failure>
  {
    match KickEndpoint(kind, clientId)
    case None => Fail(HttpError)
    case Some(endpoint) => CheckOk(kick(endpoint))
  }

  /** `kick_client` over the rooms in `paths`, asking the relay for each room's clients in
      turn (`lists`) and kicking through `kick`. */
  function KickScan(paths: seq<string>, clientId: string, lists: string -> Reply<PathsDoc>,
                    kick: string -> Reply<()>): Outcome<Failure>
    decreases |paths|
  {
    if paths == [] then Pass
    else match ConnectedClients(paths[0], lists(paths[0]))
      case Err(e) => Fail(e)
      case Ok(clients) =>
        match FirstWithId(clients, clientId)
        case Some(c) => KickRequest(c.kind, clientId, kick)
        case None => KickScan(paths[1..], clientId, lists, kick)
  }

  /** A room the relay lists without the client. */
  predicate ListsWithout(path: string, clientId: string, lists: string -> Reply<PathsDoc>) {
    && ConnectedClients(path, lists(path)).Ok?
    && FirstWithId(ConnectedClients(path, lists(path)).value, clientId).None?
  }

  /** Nobody to kick: a silent no-op. */
  lemma {:induction false} KickNobody(paths: seq<string>, clientId: string,
                                      lists: string -> Reply<PathsDoc>, kick: string -> Reply<()>)
    requires forall i :: 0 <= i < |paths| ==> ListsWithout(paths[i], clientId, lists)
    ensures KickScan(paths, clientId, lists, kick) == Pass
    decreases |paths|
  {
    if paths != [] {
      assert ListsWithout(paths[0], clientId, lists);
      KickNobody(paths[1..], clientId, lists, kick);
    }
  }

  /** Only the first client with the id, in the first room (in scan order) that has one,
      is kicked: one request, through the endpoint of that client's type. */
  lemma {:induction false} KickFirstHolder(paths: seq<string>, clientId: string, i: nat,
                                           lists: string -> Reply<PathsDoc>, kick: string -> Reply<()>)
    requires i < |paths|
    requires forall j :: 0 <= j < i ==> ListsWithout(paths[j], clientId, lists)
    requires ConnectedClients(paths[i], lists(paths[i])).Ok?
    requires FirstWithId(ConnectedClients(paths[i], lists(paths[i])).value, clientId).Some?
    ensures KickScan(paths, clientId, lists, kick) ==
      KickRequest(FirstWithId(ConnectedClients(paths[i], lists(paths[i])).value, clientId).value.kind,
                  clientId, kick)
    decreases i
  {
    if i > 0 {
      assert ListsWithout(paths[0], clientId, lists);
      KickFirstHolder(paths[1..], clientId, i - 1, lists, kick);
    }
  }

  // ---------------------------------------------------------------------------------------
  // The registry

  function View(path: string, d: RoomData): Room {
    Room(path, d.title, d.description, d.maxReaders, d.urls, d.pusher.Some?, d.textProvider.Some?)
  }

  class Broadcaster {
    /** The relay's host name, as the api client parsed it from the relay URL. */
    const host: string
    var rooms: map<string, RoomData>
    /** The keys of `rooms` in the order a `std::map` iterates them. */
    var order: seq<string>
    var deleteRoomsInDestructor: bool

    ghost predicate Valid()
      reads this
    {
      && Ascending(order)
      && (forall p :: p in rooms <==> p in order)
      && (forall p :: p in rooms ==> rooms[p].maxReaders >= 0)
    }

    constructor (host: string)
      ensures Valid() && this.host == host
      ensures rooms == map[] && order == [] && !deleteRoomsInDestructor
    {
      this.host := host;
      rooms := map[];
      order := [];
      deleteRoomsInDestructor := false;
    }

    /** A local lookup: the relay is not asked. */
    function DoesRoomExist(path: string): (b: bool)
      requires Valid()
      reads this
      ensures b <==> path in rooms
      ensures b <==> path in order
    {
      path in rooms
    }

    method CreateNewRoom(path: string, addReply: Reply<()>, confReply: Reply<GlobalConf>,
                         title: string := "", description: string := "", maxReaders: int := 0)
      returns (r: Outcome<Failure>)
      requires Valid()
      modifies this`rooms, this`order
      ensures Valid()
      ensures path in old(rooms) ==> r == Pass && rooms == old(rooms) && order == old(order)
      ensures path !in old(rooms) ==>
        match Provision(host, path, maxReaders, addReply, confReply)
        case Ok(urls) =>
          && r == Pass
          && rooms == old(rooms)[path := RoomData(title, description, maxReaders, urls, None, None)]
          && order == Insert(old(order), path)
        case Err(e) => r == Fail(e) && rooms == old(rooms) && order == old(order)
    {
      if path in rooms {
        return Pass;
      }
      if maxReaders < 0 {
        return Fail(InvalidArgument);
      }
      if addReply.Unreachable? {
        return Fail(HttpError);
      }
      if addReply.status != OK_200 && addReply.status != BAD_REQUEST_400 {
        return Fail(StatusError(addReply.status));
      }
      var fetched := CheckOk(confReply);
      if fetched.Fail? {
        return fetched;
      }
      var urls := DeriveUrls(host, confReply.body, path);
      if urls.Err? {
        return Fail(urls.error);
      }
      rooms := rooms[path := RoomData(title, description, maxReaders, urls.value, None, None)];
      order := Insert(order, path);
      r := Pass;
    }

    method DeleteRoom(path: string, deleteReply: Reply<()>) returns (r: Outcome<Failure>)
      requires Valid()
      modifies this`rooms, this`order
      ensures Valid()
      ensures path !in old(rooms) ==> r == Pass && rooms == old(rooms) && order == old(order)
      ensures path in old(rooms) ==> r == CheckOk(deleteReply)
      ensures path in old(rooms) && r.Pass? ==>
        rooms == old(rooms) - {path} && order == Remove(old(order), path)
      ensures path in old(rooms) && r.Fail? ==>
        && rooms == old(rooms)[path := old(rooms[path]).(pusher := None, textProvider := None)]
        && order == old(order)
    {
      if path !in rooms {
        return Pass;
      }
      UnpublishAudio(path);
      UnpublishText(path);
      r := CheckOk(deleteReply);
      if r.Fail? {
        return;
      }
      rooms := rooms - {path};
      order := Remove(order, path);
    }

    method PublishAudio(path: string, provider: AudioProvider, audioFormat: nat, pipeline: PipelineStatus,
                        addReply: Reply<()>, confReply: Reply<GlobalConf>,
                        chunkSize: int := DEFAULT_CHUNK_SIZE, sampleRate: int := DEFAULT_SAMPLE_RATE)
      returns (r: Outcome<Failure>)
      requires Valid()
      modifies this`rooms, this`order
      ensures Valid()
      ensures path in rooms <==> path in old(rooms) || Provision(host, path, 0, addReply, confReply).Ok?
      ensures path !in rooms ==>
        && r == Fail(Provision(host, path, 0, addReply, confReply).error)
        && rooms == old(rooms) && order == old(order)
      ensures path in rooms ==> rooms - {path} == old(rooms) - {path}
      ensures path in old(rooms) ==> order == old(order)
      ensures path in old(rooms) ==> rooms[path].(pusher := old(rooms[path].pusher)) == old(rooms[path])
      ensures path in rooms && path !in old(rooms) ==>
        && order == Insert(old(order), path)
        && rooms[path].(pusher := None)
           == RoomData("", "", 0, Provision(host, path, 0, addReply, confReply).value, None, None)
      ensures path in rooms ==> (
        rooms[path].pusher ==
          if pipeline.BuildFails? then (if path in old(rooms) then old(rooms[path].pusher) else None)
          else Some(Pusher(PUSH_URL_PREFIX + path, provider, audioFormat, chunkSize, sampleRate)))
      ensures path in rooms ==> (
        r == match pipeline
             case Started => Pass
             case BuildFails => Fail(PipelineBuildError)
             case StartFails => Fail(PipelineStartError))
    {
      if path !in rooms {
        r := CreateNewRoom(path, addReply, confReply);
        if r.Fail? {
          return;
        }
      }
      if pipeline.BuildFails? {
        return Fail(PipelineBuildError);
      }
      rooms := rooms[path := rooms[path].(pusher := Some(Pusher(PUSH_URL_PREFIX + path, provider,
                                                                audioFormat, chunkSize, sampleRate)))];
      r := if pipeline.StartFails? then Fail(PipelineStartError) else Pass;
    }

    method UnpublishAudio(path: string)
      requires Valid()
      modifies this`rooms
      ensures Valid()
      ensures path !in old(rooms) ==> rooms == old(rooms)
      ensures path in old(rooms) ==> rooms == old(rooms)[path := old(rooms[path]).(pusher := None)]
    {
      if path !in rooms {
        return;
      }
      rooms := rooms[path := rooms[path].(pusher := None)];
    }

    method PublishText(path: string, provider: TextProvider,
                       addReply: Reply<()>, confReply: Reply<GlobalConf>) returns (r: Outcome<Failure>)
      requires Valid()
      modifies this`rooms, this`order
      ensures Valid()
      ensures r.Pass? <==> path in old(rooms) || Provision(host, path, 0, addReply, confReply).Ok?
      ensures r.Fail? ==>
        && r.error == Provision(host, path, 0, addReply, confReply).error
        && rooms == old(rooms) && order == old(order)
      ensures r.Pass? ==> path in rooms && rooms - {path} == old(rooms) - {path}
      ensures r.Pass? ==> rooms[path].textProvider == Some(provider)
      ensures path in old(rooms) ==>
        order == old(order) && rooms[path] == old(rooms[path]).(textProvider := Some(provider))
      ensures r.Pass? && path !in old(rooms) ==>
        && order == Insert(old(order), path)
        && rooms[path] == RoomData("", "", 0, Provision(host, path, 0, addReply, confReply).value,
                                   None, Some(provider))
    {
      if path !in rooms {
        r := CreateNewRoom(path, addReply, confReply);
        if r.Fail? {
          return;
        }
      }
      rooms := rooms[path := rooms[path].(textProvider := Some(provider))];
      r := Pass;
    }

    method UnpublishText(path: string)
      requires Valid()
      modifies this`rooms
      ensures Valid()
      ensures path !in old(rooms) ==> rooms == old(rooms)
      ensures path in old(rooms) ==> rooms == old(rooms)[path := old(rooms[path]).(textProvider := None)]
    {
      if path !in rooms {
        return;
      }
      rooms := rooms[path := rooms[path].(textProvider := None)];
    }

    /** Every room, in the map's key order. */
    method GetRooms() returns (list: seq<Room>)
      requires Valid()
      ensures |list| == |order|
      ensures forall i :: 0 <= i < |list| ==> list[i] == View(order[i], rooms[order[i]])
      ensures forall p :: p in rooms <==> exists i :: 0 <= i < |list| && list[i].path == p
      ensures forall i, j :: 0 <= i < j < |list| ==> Below(list[i].path, list[j].path)
    {
      list := [];
      for i := 0 to |order|
        invariant |list| == i
        invariant forall k :: 0 <= k < i ==> list[k] == View(order[k], rooms[order[k]])
      {
        list := list + [View(order[i], rooms[order[i]])];
      }
      assert forall i :: 0 <= i < |list| ==> list[i].path == order[i];
    }

    /** `get_connected_clients(path)`: the loop over the parsed `/v3/paths/list` body. */
    method GetConnectedClients(path: string, reply: Reply<PathsDoc>) returns (r: Result<seq<Client>, Failure>)
      ensures r == ConnectedClients(path, reply)
    {
      var status := CheckOk(reply);
      if status.Fail? {
        return Err(status.error);
      }
      var doc := reply.body;
      if doc.UnparsablePaths? || doc.items.None? {
        return Err(InvalidJson);
      }
      var items := doc.items.value;
      var clients: seq<Client> := [];
      var i := 0;
      while i < |items|
        invariant 0 <= i <= |items|
        invariant clients == []
        invariant FindClients(items, path) == FindClients(items[i..], path)
      {
        var item := items[i];
        assert items[i..][0] == item && items[i..][1..] == items[i + 1..];
        if item.name.Missing? {
          return Err(InvalidJson);
        }
        if item.name == Str(path) {
          if item.readers.None? {
            return Err(InvalidJson);
          }
          var readers := item.readers.value;
          for k := 0 to |readers|
            invariant |clients| == k
            invariant forall j :: 0 <= j < k ==>
                        readers[j].id.Str? && readers[j].kind.Str?
                        && clients[j] == Client(readers[j].id.s, readers[j].kind.s)
          {
            var reader := readers[k];
            if !reader.id.Str? || !reader.kind.Str? {
              return Err(InvalidJson);
            }
            clients := clients + [Client(reader.id.s, reader.kind.s)];
          }
          assert WellFormedReaders(readers);
          assert ReadersToClients(readers).value == clients;
          break;
        }
        i := i + 1;
      }
      r := Ok(clients);
    }

    /** `kick_client(clientId)`: rooms in key order, each room's clients from the relay. */
    method KickClient(clientId: string, lists: string -> Reply<PathsDoc>, kick: string -> Reply<()>)
      returns (r: Outcome<Failure>)
      ensures r == KickScan(order, clientId, lists, kick)
    {
      var i := 0;
      while i < |order|
        invariant 0 <= i <= |order|
        invariant KickScan(order, clientId, lists, kick) == KickScan(order[i..], clientId, lists, kick)
      {
        var clients := GetConnectedClients(order[i], lists(order[i]));
        if clients.Err? {
          return Fail(clients.error);
        }
        var cs := clients.value;
        for k := 0 to |cs|
          invariant forall j :: 0 <= j < k ==> cs[j].id != clientId
        {
          if cs[k].id == clientId {
            var endpoint := KickEndpoint(cs[k].kind, clientId);
            if endpoint.None? {
              return Fail(HttpError);
            }
            return CheckOk(kick(endpoint.value));
          }
        }
        i := i + 1;
      }
      r := Pass;
    }

    /** The decision of the `/v1/rooms/<path>/text` handler. */
    function TextHandler(path: string, current: TextProvider -> string): (r: TextReply)
      reads this
      ensures r.NotFound? <==> path !in rooms
      ensures r.NotFound? ==> r == NotFound(404, ROOM_NOT_FOUND)
      ensures r.TextData? && rooms[path].textProvider.None? ==> r.data == ""
      ensures r.TextData? && rooms[path].textProvider.Some? ==>
        r.data == current(rooms[path].textProvider.value)
    {
      if path !in rooms then NotFound(404, ROOM_NOT_FOUND)
      else match rooms[path].textProvider
        case Some(provider) => TextData(current(provider))
        case None => TextData("")
    }

    method SetDeleteRoomsInDestructor(b: bool) returns (self: Broadcaster)
      modifies this`deleteRoomsInDestructor
      ensures self == this && GetDeleteRoomsInDestructor() == b
    {
      deleteRoomsInDestructor := b;
      self := this;
    }

    function GetDeleteRoomsInDestructor(): (b: bool)
      reads this
      ensures b == deleteRoomsInDestructor
    {
      deleteRoomsInDestructor
    }
  }

  /** What the contracts let a caller of `create_new_room` conclude. */
  method CreateScenario(conf: GlobalConf)
    requires HasAllPrefixes(conf) && conf.rtspAddress == Str(":8554")
  {
    var b := new Broadcaster("localhost");
    var added, fetched := Replied(OK_200, ()), Replied(OK_200, conf);
    var r := b.CreateNewRoom("room1", added, fetched, "Title");
    assert r == Pass && b.DoesRoomExist("room1");
    assert b.rooms["room1"].urls.rtsp == "rtsp://localhost:8554/room1";

    // creating an existing room asks the relay nothing and changes nothing
    r := b.CreateNewRoom("room1", Unreachable, Unreachable, "Other", "x", -1);
    assert r == Pass && b.rooms["room1"].title == "Title";

    r := b.CreateNewRoom("room2", added, fetched, maxReaders := -1);
    assert r == Fail(InvalidArgument) && !b.DoesRoomExist("room2");
  }

  /** Publishing on a new path creates the room with the default metadata. */
  method PublishScenario(conf: GlobalConf, provider: AudioProvider)
    requires HasAllPrefixes(conf)
  {
    var b := new Broadcaster("localhost");
    var r := b.PublishAudio("room3", provider, 0, Started, Replied(BAD_REQUEST_400, ()), Replied(OK_200, conf));
    assert r == Pass && b.rooms["room3"].title == "" && b.rooms["room3"].maxReaders == 0;
    assert b.rooms["room3"].pusher.value.chunkSize == 1024 && b.rooms["room3"].pusher.value.sampleRate == 44100;
    var list := b.GetRooms();
    var i :| 0 <= i < |list| && list[i].path == "room3";
    assert list[i].hasAudioDataProvider;

    b.UnpublishAudio("room3");
    b.UnpublishAudio("room3");
    assert b.rooms["room3"].pusher == None && b.rooms["room3"].title == "";
  }

  /** A refused deletion keeps the room, without its providers; an accepted one removes it. */
  method DeleteScenario(conf: GlobalConf, text: TextProvider)
    requires HasAllPrefixes(conf)
  {
    var b := new Broadcaster("localhost");
    var r := b.PublishText("room1", text, Replied(OK_200, ()), Replied(OK_200, conf));
    assert b.TextHandler("room1", t => "hello") == TextData("hello");

    r := b.DeleteRoom("room1", Replied(500, ()));
    assert r == Fail(StatusError(500)) && b.DoesRoomExist("room1");
    assert b.TextHandler("room1", t => "hello") == TextData("");

    r := b.DeleteRoom("room1", Replied(OK_200, ()));
    assert !b.DoesRoomExist("room1") && b.TextHandler("room1", t => "hello").NotFound?;
  }
}
