/** The back end's publishing service: which platforms a post is sent to, and how each
    platform's request sequence is built. Every remote call is an abstract step: the function
    `remote` says how the endpoint answers a request, and each operation returns, besides its
    outcome, the requests it sent in the order it sent them. */
module PostService {
  import opened Wrappers

  datatype Platform = Facebook | Twitter | LinkedIn | Instagram

  const FacebookKey := "facebook"
  const TwitterKey := "twitter"
  const LinkedInKey := "linkedin"
  const InstagramKey := "instagram"

  /** The key a platform has in the content and token maps. */
  function Name(p: Platform): string {
    match p
    case Facebook => FacebookKey
    case Twitter => TwitterKey
    case LinkedIn => LinkedInKey
    case Instagram => InstagramKey
  }

  /** The position of a platform in the fixed dispatch order. */
  function Rank(p: Platform): nat {
    match p
    case Facebook => 0
    case Twitter => 1
    case LinkedIn => 2
    case Instagram => 3
  }

  /** A response body, reduced to its string-valued fields. */
  type Fields = map<string, string>

  /** What a remote endpoint did with a request: answered with a body, or failed. */
  datatype Response = Answer(data: Fields) | Failure

  datatype FormValue = Text(text: string) | FileStream(path: string) | Undefined

  datatype FormField = FormField(name: string, value: FormValue)

  /** The JSON body of a tweet; `mediaIds` is the `media.media_ids` member, absent when `None`. */
  datatype TweetBody = TweetBody(text: string, mediaIds: Option<seq<string>>)

  datatype Request =
    | FacebookPhoto(form: seq<FormField>)
    | TwitterMediaUpload(imagePath: string, accessToken: Option<string>)
    | TweetCreate(body: TweetBody, accessToken: Option<string>)
    | LinkedInRegisterUpload(accessToken: Option<string>)
    | LinkedInUploadImage(uploadUrl: string, image: string, accessToken: Option<string>)
    | LinkedInUgcPost(text: string, asset: Option<string>, accessToken: Option<string>)
    | InstagramCreateMedia(imageUrl: string, caption: string, accessToken: Option<string>)
    | InstagramPublish(creationId: Option<string>, accessToken: Option<string>)

  datatype PublishError =
    | NoImage             // `imagePathOrUrl.startsWith` read on `undefined`
    | NoLibraryImage      // `libraryImage.src` read on `null`
    | ImageNotFound(path: string)
    | MediaUploadFailed
    | MalformedResponse   // the registration answer has no upload URL
    | RequestFailed

  type Outcome = Result<Fields, PublishError>

  /** A JavaScript value that is a string is truthy when it is not empty. */
  predicate Truthy(s: Option<string>) {
    s.Some? && s.value != ""
  }

  function Get(m: map<string, string>, key: string): Option<string> {
    if key in m then Some(m[key]) else None
  }

  function TokenValue(token: Option<string>): FormValue {
    if token.Some? then Text(token.value) else Undefined
  }

  /** The promise of an HTTP call: resolved with the body, or rejected. */
  function Settle(r: Response): Outcome {
    if r.Answer? then Ok(r.data) else Err(RequestFailed)
  }

  /** The media id a Twitter upload answer carries, when it carries a non-empty one. */
  function MediaIdOf(r: Response): Option<string> {
    if r.Answer? && Truthy(Get(r.data, "media_id_string")) then Get(r.data, "media_id_string") else None
  }

  /** The Facebook adapter as a value: the outcome and the requests sent. */
  function FacebookRun(content: string, imagePathOrUrl: Option<string>, accessToken: Option<string>,
                       remote: Request -> Response): (Outcome, seq<Request>)
  {
    if imagePathOrUrl.None? then (Err(NoImage), [])
    else
      var image := imagePathOrUrl.value;
      var media := if "http" <= image then FormField("url", Text(image)) else FormField("source", FileStream(image));
      var request := FacebookPhoto([media, FormField("message", Text(content)),
                                    FormField("access_token", TokenValue(accessToken))]);
      (Settle(remote(request)), [request])
  }

  /** The Twitter adapter as a value. */
  function TwitterRun(content: string, imagePath: Option<string>, accessToken: Option<string>,
                      disk: set<string>, remote: Request -> Response): (Outcome, seq<Request>)
  {
    if !Truthy(imagePath) then
      var tweet := TweetCreate(TweetBody(content, None), accessToken);
      (Settle(remote(tweet)), [tweet])
    else if imagePath.value !in disk then (Err(ImageNotFound(imagePath.value)), [])
    else
      var upload := TwitterMediaUpload(imagePath.value, accessToken);
      var response := remote(upload);
      if response.Failure? then (Err(RequestFailed), [upload])
      else if MediaIdOf(response).None? then (Err(MediaUploadFailed), [upload])
      else
        var tweet := TweetCreate(TweetBody(content, Some([MediaIdOf(response).value])), accessToken);
        (Settle(remote(tweet)), [upload, tweet])
  }

  /** The LinkedIn adapter as a value. */
  function LinkedInRun(content: string, image: string, accessToken: Option<string>,
                       remote: Request -> Response): (Outcome, seq<Request>)
  {
    var register := LinkedInRegisterUpload(accessToken);
    var registration := remote(register);
    if registration.Failure? then (Err(RequestFailed), [register])
    else if "uploadUrl" !in registration.data then (Err(MalformedResponse), [register])
    else
      var upload := LinkedInUploadImage(registration.data["uploadUrl"], image, accessToken);
      if remote(upload).Failure? then (Err(RequestFailed), [register, upload])
      else
        var post := LinkedInUgcPost(content, Get(registration.data, "asset"), accessToken);
        (Settle(remote(post)), [register, upload, post])
  }

  /** The Instagram adapter as a value. */
  function InstagramRun(content: string, imageUrl: string, accessToken: Option<string>,
                        remote: Request -> Response): (Outcome, seq<Request>)
  {
    var create := InstagramCreateMedia(imageUrl, content, accessToken);
    var media := remote(create);
    if media.Failure? then (Err(RequestFailed), [create])
    else
      var publish := InstagramPublish(Get(media.data, "id"), accessToken);
      (Settle(remote(publish)), [create, publish])
  }

  /** A photo post to the Facebook page: an image string that starts with `http` goes in the
      `url` field, anything else is read as a local file into the `source` field; the message and
      the access token always follow. Without an image nothing is sent. */
  method PostToFacebook(content: string, imagePathOrUrl: Option<string>, accessToken: Option<string>,
                        remote: Request -> Response)
    returns (r: Outcome, sent: seq<Request>)
    ensures imagePathOrUrl.None? ==> r == Err(NoImage) && sent == []
    ensures imagePathOrUrl.Some? ==>
      var image := imagePathOrUrl.value;
      && |sent| == 1 && sent[0].FacebookPhoto? && |sent[0].form| == 3
      && (sent[0].form[0].name == "url" <==> "http" <= image)
      && sent[0].form[0] == (if "http" <= image then FormField("url", Text(image)) else FormField("source", FileStream(image)))
      && sent[0].form[1] == FormField("message", Text(content))
      && sent[0].form[2] == FormField("access_token", TokenValue(accessToken))
      && r == Settle(remote(sent[0]))
    ensures (r, sent) == FacebookRun(content, imagePathOrUrl, accessToken, remote)
  {
    if imagePathOrUrl.None? {
      return Err(NoImage), [];
    }
    var image := imagePathOrUrl.value;
    var form: seq<FormField> := [];
    if "http" <= image {
      form := form + [FormField("url", Text(image))];
    } else {
      form := form + [FormField("source", FileStream(image))];
    }
    form := form + [FormField("message", Text(content))];
    form := form + [FormField("access_token", TokenValue(accessToken))];
    assert form == [form[0], FormField("message", Text(content)), FormField("access_token", TokenValue(accessToken))];
    var request := FacebookPhoto(form);
    sent := [request];
    r := Settle(remote(request));
  }

  /** A tweet, with an optional media upload first. The upload happens only when an image path is
      given; a path that is not on `disk`, a failed upload or an upload answer without a media id
      ends the operation with an error before any tweet is sent. The tweet's text is always the
      content, and it carries the media id exactly when one was obtained. */
  method PostToTwitter(content: string, imagePath: Option<string>, accessToken: Option<string>,
                       disk: set<string>, remote: Request -> Response)
    returns (r: Outcome, sent: seq<Request>)
    ensures !Truthy(imagePath) ==>
      sent == [TweetCreate(TweetBody(content, None), accessToken)] && r == Settle(remote(sent[0]))
    ensures Truthy(imagePath) && imagePath.value !in disk ==>
      sent == [] && r == Err(ImageNotFound(imagePath.value))
    ensures Truthy(imagePath) && imagePath.value in disk ==>
      && 1 <= |sent| <= 2
      && sent[0] == TwitterMediaUpload(imagePath.value, accessToken)
      && (remote(sent[0]).Failure? ==> sent == [sent[0]] && r == Err(RequestFailed))
      && (remote(sent[0]).Answer? && MediaIdOf(remote(sent[0])).None? ==>
            sent == [sent[0]] && r == Err(MediaUploadFailed))
      && (MediaIdOf(remote(sent[0])).Some? ==>
            && |sent| == 2
            && sent[1] == TweetCreate(TweetBody(content, Some([MediaIdOf(remote(sent[0])).value])), accessToken)
            && r == Settle(remote(sent[1])))
    ensures forall i :: 0 <= i < |sent| && sent[i].TweetCreate? ==> i == |sent| - 1 && sent[i].body.text == content
    ensures (r, sent) == TwitterRun(content, imagePath, accessToken, disk, remote)
  {
    var mediaId: Option<string> := None;
    sent := [];
    if Truthy(imagePath) {
      if imagePath.value !in disk {
        return Err(ImageNotFound(imagePath.value)), [];
      }
      var upload := TwitterMediaUpload(imagePath.value, accessToken);
      sent := sent + [upload];
      var response := remote(upload);
      if response.Failure? {
        return Err(RequestFailed), sent;
      }
      if MediaIdOf(response).Some? {
        mediaId := MediaIdOf(response);
      } else {
        return Err(MediaUploadFailed), sent;
      }
    }
    var body := TweetBody(content, None);
    if Truthy(mediaId) {
      body := body.(mediaIds := Some([mediaId.value]));
    }
    var tweet := TweetCreate(body, accessToken);
    assert sent + [tweet] == if sent == [] then [tweet] else [sent[0], tweet];
    sent := sent + [tweet];
    r := Settle(remote(tweet));
  }

  /** A LinkedIn post in three phases: register an upload, upload the image to the URL the
      registration returned, then publish a UGC post whose media is the registered asset. A
      failed phase ends the operation; the later phases are not attempted. */
  method PostToLinkedIn(content: string, image: string, accessToken: Option<string>,
                        remote: Request -> Response)
    returns (r: Outcome, sent: seq<Request>)
    ensures 1 <= |sent| <= 3 && sent[0] == LinkedInRegisterUpload(accessToken)
    ensures remote(sent[0]).Failure? ==> sent == [sent[0]] && r == Err(RequestFailed)
    ensures remote(sent[0]).Answer? && "uploadUrl" !in remote(sent[0]).data ==>
      sent == [sent[0]] && r == Err(MalformedResponse)
    ensures remote(sent[0]).Answer? && "uploadUrl" in remote(sent[0]).data ==>
      var registration := remote(sent[0]).data;
      && |sent| >= 2
      && sent[1] == LinkedInUploadImage(registration["uploadUrl"], image, accessToken)
      && (remote(sent[1]).Failure? ==> |sent| == 2 && r == Err(RequestFailed))
      && (remote(sent[1]).Answer? ==>
            && |sent| == 3
            && sent[2] == LinkedInUgcPost(content, Get(registration, "asset"), accessToken)
            && r == Settle(remote(sent[2])))
    ensures (r, sent) == LinkedInRun(content, image, accessToken, remote)
  {
    var register := LinkedInRegisterUpload(accessToken);
    sent := [register];
    var registration := remote(register);
    if registration.Failure? {
      return Err(RequestFailed), sent;
    }
    var assetId := Get(registration.data, "asset");
    if "uploadUrl" !in registration.data {
      return Err(MalformedResponse), sent;
    }
    var upload := LinkedInUploadImage(registration.data["uploadUrl"], image, accessToken);
    sent := sent + [upload];
    assert sent == [register, upload];
    if remote(upload).Failure? {
      return Err(RequestFailed), sent;
    }
    var post := LinkedInUgcPost(content, assetId, accessToken);
    sent := sent + [post];
    assert sent == [register, upload, post];
    r := Settle(remote(post));
  }

  /** An Instagram post in two phases: create a media container, then publish it by the `id`
      the creation answered. A failed creation ends the operation before the publish. */
  method PostToInstagram(content: string, imageUrl: string, accessToken: Option<string>,
                         remote: Request -> Response)
    returns (r: Outcome, sent: seq<Request>)
    ensures 1 <= |sent| && sent[0] == InstagramCreateMedia(imageUrl, content, accessToken)
    ensures remote(sent[0]).Failure? ==> sent == [sent[0]] && r == Err(RequestFailed)
    ensures remote(sent[0]).Answer? ==>
      && sent == [sent[0], InstagramPublish(Get(remote(sent[0]).data, "id"), accessToken)]
      && r == Settle(remote(sent[1]))
    ensures (r, sent) == InstagramRun(content, imageUrl, accessToken, remote)
  {
    var create := InstagramCreateMedia(imageUrl, content, accessToken);
    sent := [create];
    var media := remote(create);
    if media.Failure? {
      return Err(RequestFailed), sent;
    }
    var creationId := Get(media.data, "id");
    var publish := InstagramPublish(creationId, accessToken);
    sent := sent + [publish];
    r := Settle(remote(publish));
  }

  /** A library image chosen in the composer; only its `src` is read here. */
  datatype LibraryImage = LibraryImage(src: string)

  /** One per-platform publish call: the platform, its text, the image argument and its token. */
  datatype Call = Call(platform: Platform, text: string, image: Option<string>, accessToken: Option<string>)

  /** `image || libraryImage?.src` */
  function ImageOrLibrary(image: Option<string>, library: Option<LibraryImage>): Option<string> {
    if Truthy(image) then image else if library.Some? then Some(library.value.src) else None
  }

  /** True when neither an uploaded nor a library image is there, so that `libraryImage.src`
      raises. */
  predicate NoImageAtAll(image: Option<string>, library: Option<LibraryImage>) {
    !Truthy(image) && library.None?
  }

  /** True when dispatch raises: LinkedIn or Instagram content is there but no image at all. */
  predicate DispatchRaises(content: map<string, string>, image: Option<string>, library: Option<LibraryImage>) {
    NoImageAtAll(image, library) && (Truthy(Get(content, Name(LinkedIn))) || Truthy(Get(content, Name(Instagram))))
  }

  /** `Promise.all` over the settled calls: the values in order when every call succeeded,
      otherwise the first failure. */
  function Combine(outcomes: seq<Outcome>): (r: Result<seq<Fields>, PublishError>)
    ensures r.Ok? <==> forall i :: 0 <= i < |outcomes| ==> outcomes[i].Ok?
    ensures r.Ok? ==> |r.value| == |outcomes| && forall i :: 0 <= i < |outcomes| ==> r.value[i] == outcomes[i].value
    ensures r.Err? ==> exists i :: 0 <= i < |outcomes| && outcomes[i] == Err(r.error)
  {
    if outcomes == [] then Ok([])
    else if outcomes[0].Err? then Err(outcomes[0].error)
    else
      match Combine(outcomes[1..])
      case Ok(values) => Ok([outcomes[0].value] + values)
      case Err(e) => Err(e)
  }

  /** A call its adapter can take: LinkedIn and Instagram are only called with an image. */
  predicate Runnable(call: Call) {
    call.platform in {LinkedIn, Instagram} ==> call.image.Some?
  }

  /** One call run on its platform's adapter: the outcome and the requests sent. */
  function Run(call: Call, disk: set<string>, remote: Request -> Response): (Outcome, seq<Request>)
    requires Runnable(call)
  {
    match call.platform
    case Facebook => FacebookRun(call.text, call.image, call.accessToken, remote)
    case Twitter => TwitterRun(call.text, call.image, call.accessToken, disk, remote)
    case LinkedIn => LinkedInRun(call.text, call.image.value, call.accessToken, remote)
    case Instagram => InstagramRun(call.text, call.image.value, call.accessToken, remote)
  }

  /** The calls run one after the other: the outcome of each call, in order, and all the
      requests, call after call. */
  function RunAll(calls: seq<Call>, disk: set<string>, remote: Request -> Response): (r: (seq<Outcome>, seq<Request>))
    requires forall c <- calls :: Runnable(c)
    ensures |r.0| == |calls|
    ensures forall i :: 0 <= i < |calls| ==> r.0[i] == Run(calls[i], disk, remote).0
  {
    if calls == [] then ([], [])
    else
      var rest := RunAll(calls[1..], disk, remote);
      ([Run(calls[0], disk, remote).0] + rest.0, Run(calls[0], disk, remote).1 + rest.1)
  }

  /** Running two batches one after the other is running their concatenation. */
  lemma {:induction false} RunAllAppend(a: seq<Call>, b: seq<Call>, disk: set<string>, remote: Request -> Response)
    requires forall c <- a :: Runnable(c)
    requires forall c <- b :: Runnable(c)
    ensures forall c <- a + b :: Runnable(c)
    ensures RunAll(a + b, disk, remote)
      == (RunAll(a, disk, remote).0 + RunAll(b, disk, remote).0, RunAll(a, disk, remote).1 + RunAll(b, disk, remote).1)
  {
    if a == [] {
      assert a + b == b;
      assert RunAll(a, disk, remote) == ([], []);
      assert [] + RunAll(b, disk, remote).0 == RunAll(b, disk, remote).0;
      assert [] + RunAll(b, disk, remote).1 == RunAll(b, disk, remote).1;
    } else {
      assert (a + b)[0] == a[0] && (a + b)[1..] == a[1..] + b;
      RunAllAppend(a[1..], b, disk, remote);
      var head := Run(a[0], disk, remote);
      var tail := RunAll(a[1..], disk, remote);
      var other := RunAll(b, disk, remote);
      assert RunAll(a + b, disk, remote) == ([head.0] + (tail.0 + other.0), head.1 + (tail.1 + other.1));
      assert [head.0] + (tail.0 + other.0) == ([head.0] + tail.0) + other.0;
      assert head.1 + (tail.1 + other.1) == (head.1 + tail.1) + other.1;
    }
  }

  /** Four batches run one after the other. */
  lemma RunAllFour(c1: seq<Call>, c2: seq<Call>, c3: seq<Call>, c4: seq<Call>, disk: set<string>,
                   remote: Request -> Response)
    requires forall c <- c1 :: Runnable(c)
    requires forall c <- c2 :: Runnable(c)
    requires forall c <- c3 :: Runnable(c)
    requires forall c <- c4 :: Runnable(c)
    ensures forall c <- c1 + c2 + c3 + c4 :: Runnable(c)
    ensures var (r1, r2, r3, r4) := (RunAll(c1, disk, remote), RunAll(c2, disk, remote), RunAll(c3, disk, remote),
                                     RunAll(c4, disk, remote));
      RunAll(c1 + c2 + c3 + c4, disk, remote) == (r1.0 + r2.0 + r3.0 + r4.0, r1.1 + r2.1 + r3.1 + r4.1)
  {
    RunAllAppend(c1, c2, disk, remote);
    RunAllAppend(c1 + c2, c3, disk, remote);
    RunAllAppend(c1 + c2 + c3, c4, disk, remote);
  }

  /** Runs one call on its platform's adapter. */
  method Invoke(call: Call, disk: set<string>, remote: Request -> Response) returns (r: Outcome, sent: seq<Request>)
    requires Runnable(call)
    ensures (r, sent) == Run(call, disk, remote)
    ensures call.platform == Facebook && call.image.None? ==> r == Err(NoImage) && sent == []
    ensures call.platform in {LinkedIn, Instagram} ==> |sent| >= 1
  {
    match call.platform
    case Facebook =>
      r, sent := PostToFacebook(call.text, call.image, call.accessToken, remote);
    case Twitter =>
      r, sent := PostToTwitter(call.text, call.image, call.accessToken, disk, remote);
    case LinkedIn =>
      r, sent := PostToLinkedIn(call.text, call.image.value, call.accessToken, remote);
    case Instagram =>
      r, sent := PostToInstagram(call.text, call.image.value, call.accessToken, remote);
  }

  /** True when platform `p` gets a call: its content entry is non-empty and, for LinkedIn and
      Instagram, some image is there. */
  predicate Wanted(p: Platform, content: map<string, string>, image: Option<string>, library: Option<LibraryImage>) {
    Truthy(Get(content, Name(p))) && (p in {Facebook, Twitter} || !NoImageAtAll(image, library))
  }

  /** The call for platform `p`: its own text, the token stored under its name and the image
      `image || libraryImage?.src`. */
  function MakeCall(p: Platform, content: map<string, string>, image: Option<string>, library: Option<LibraryImage>,
                    tokens: map<string, string>): Call
    requires Name(p) in content
  {
    Call(p, content[Name(p)], ImageOrLibrary(image, library), Get(tokens, Name(p)))
  }

  /** The call for platform `p` when it is wanted; no call otherwise. */
  function CallFor(p: Platform, content: map<string, string>, image: Option<string>, library: Option<LibraryImage>,
                   tokens: map<string, string>): seq<Call>
  {
    if Wanted(p, content, image, library) then [MakeCall(p, content, image, library, tokens)] else []
  }

  /** The platforms in the order `publishToAllPlatforms` considers them. */
  const DispatchOrder: seq<Platform> := [Facebook, Twitter, LinkedIn, Instagram]

  /** The calls made for the platforms of `order`, in that order. */
  function CallsFor(order: seq<Platform>, content: map<string, string>, image: Option<string>,
                    library: Option<LibraryImage>, tokens: map<string, string>): seq<Call>
  {
    if order == [] then []
    else CallFor(order[0], content, image, library, tokens) + CallsFor(order[1..], content, image, library, tokens)
  }

  /** The calls `publishToAllPlatforms` starts, in dispatch order. */
  function Dispatched(content: map<string, string>, image: Option<string>, library: Option<LibraryImage>,
                      tokens: map<string, string>): seq<Call>
  {
    CallsFor(DispatchOrder, content, image, library, tokens)
  }

  lemma CallsForCons(p: Platform, order: seq<Platform>, content: map<string, string>, image: Option<string>,
                     library: Option<LibraryImage>, tokens: map<string, string>)
    ensures CallsFor([p] + order, content, image, library, tokens)
      == CallFor(p, content, image, library, tokens) + CallsFor(order, content, image, library, tokens)
  {
    assert ([p] + order)[1..] == order;
  }

  lemma Regroup(a: seq<Call>, b: seq<Call>, c: seq<Call>, d: seq<Call>)
    ensures a + (b + (c + d)) == a + b + c + d
  {
  }

  lemma DispatchedUnfold(content: map<string, string>, image: Option<string>, library: Option<LibraryImage>,
                         tokens: map<string, string>)
    ensures Dispatched(content, image, library, tokens)
      == CallFor(Facebook, content, image, library, tokens) + CallFor(Twitter, content, image, library, tokens)
         + CallFor(LinkedIn, content, image, library, tokens) + CallFor(Instagram, content, image, library, tokens)
  {
    var f := CallFor(Facebook, content, image, library, tokens);
    var t := CallFor(Twitter, content, image, library, tokens);
    var l := CallFor(LinkedIn, content, image, library, tokens);
    var i := CallFor(Instagram, content, image, library, tokens);
    assert DispatchOrder[1..] == [Twitter, LinkedIn, Instagram];
    assert [Twitter, LinkedIn, Instagram][1..] == [LinkedIn, Instagram];
    assert [LinkedIn, Instagram][1..] == [Instagram];
    assert [Instagram][1..] == [];
    assert CallsFor([Instagram], content, image, library, tokens) == i + [];
    assert CallsFor([LinkedIn, Instagram], content, image, library, tokens) == l + (i + []);
    assert CallsFor([Twitter, LinkedIn, Instagram], content, image, library, tokens) == t + (l + (i + []));
    assert Dispatched(content, image, library, tokens) == f + (t + (l + (i + [])));
    assert i + [] == i;
    Regroup(f, t, l, i);
  }

  /** One `if (content.<platform>) promises.push(...)` step: raises for LinkedIn and Instagram
      when there is no image at all, and otherwise starts the platform's call when its content
      entry is non-empty. */
  method DispatchTo(p: Platform, content: map<string, string>, image: Option<string>, library: Option<LibraryImage>,
                    tokens: map<string, string>, disk: set<string>, remote: Request -> Response)
    returns (raised: bool, calls: seq<Call>, outcomes: seq<Outcome>, sent: seq<Request>)
    ensures raised <==> p in {LinkedIn, Instagram} && Truthy(Get(content, Name(p))) && NoImageAtAll(image, library)
    ensures calls == CallFor(p, content, image, library, tokens)
    ensures forall c <- calls :: Runnable(c)
    ensures (outcomes, sent) == RunAll(calls, disk, remote)
  {
    raised, calls, outcomes, sent := false, [], [], [];
    if Truthy(Get(content, Name(p))) {
      if p in {LinkedIn, Instagram} && NoImageAtAll(image, library) {
        return true, [], [], [];
      }
      var call := Call(p, content[Name(p)], ImageOrLibrary(image, library), Get(tokens, Name(p)));
      var o, s := Invoke(call, disk, remote);
      calls, outcomes, sent := [call], [o], s;
      assert [call][1..] == [];
      assert RunAll([call], disk, remote) == ([o] + [], s + []);
      assert [o] + [] == [o] && s + [] == s;
    }
  }

  /** Publishes one post to every platform whose content entry is non-empty, in the order
      facebook, twitter, linkedin, instagram, and combines the results as `Promise.all` does.
      When LinkedIn or Instagram content is there but no image at all, dispatch raises at that
      platform: the calls already dispatched have run, no later one is, and the result is that
      error. */
  method PublishToAllPlatforms(content: map<string, string>, image: Option<string>, library: Option<LibraryImage>,
                               tokens: map<string, string>, disk: set<string>, remote: Request -> Response)
    returns (r: Result<seq<Fields>, PublishError>, calls: seq<Call>, outcomes: seq<Outcome>, sent: seq<Request>)
    ensures calls == Dispatched(content, image, library, tokens)
    ensures forall c <- calls :: Runnable(c)
    ensures (outcomes, sent) == RunAll(calls, disk, remote)
    ensures r == if DispatchRaises(content, image, library) then Err(NoLibraryImage) else Combine(outcomes)
  {
    DispatchedUnfold(content, image, library, tokens);
    var _, c1, o1, s1 := DispatchTo(Facebook, content, image, library, tokens, disk, remote);
    var _, c2, o2, s2 := DispatchTo(Twitter, content, image, library, tokens, disk, remote);
    var raised, c3, o3, s3 := DispatchTo(LinkedIn, content, image, library, tokens, disk, remote);
    var c4: seq<Call>, o4: seq<Outcome>, s4: seq<Request> := [], [], [];
    if raised {
      // `libraryImage.src` raised: the Instagram block is never reached, and it would not call.
      assert CallFor(Instagram, content, image, library, tokens) == [];
    } else {
      raised, c4, o4, s4 := DispatchTo(Instagram, content, image, library, tokens, disk, remote);
    }
    RunAllFour(c1, c2, c3, c4, disk, remote);
    calls, outcomes, sent := c1 + c2 + c3 + c4, o1 + o2 + o3 + o4, s1 + s2 + s3 + s4;
    r := if raised then Err(NoLibraryImage) else Combine(outcomes);
  }

  predicate RanksIncrease(order: seq<Platform>) {
    forall i, j :: 0 <= i < j < |order| ==> Rank(order[i]) < Rank(order[j])
  }

  /** The calls' platforms strictly follow the dispatch order. */
  predicate CallsAscend(calls: seq<Call>) {
    forall i, j :: 0 <= i < j < |calls| ==> Rank(calls[i].platform) < Rank(calls[j].platform)
  }

  /** Each call made for `order` is the call of a wanted platform of `order`. */
  lemma {:induction false} CallsForWanted(order: seq<Platform>, content: map<string, string>, image: Option<string>,
                                          library: Option<LibraryImage>, tokens: map<string, string>)
    ensures forall c <- CallsFor(order, content, image, library, tokens) ::
      c.platform in order && Wanted(c.platform, content, image, library)
      && c == MakeCall(c.platform, content, image, library, tokens)
  {
    if order != [] {
      var calls := CallsFor(order, content, image, library, tokens);
      var head := CallFor(order[0], content, image, library, tokens);
      var rest := CallsFor(order[1..], content, image, library, tokens);
      CallsForWanted(order[1..], content, image, library, tokens);
      assert calls == head + rest;
      forall c | c in calls
        ensures c.platform in order && Wanted(c.platform, content, image, library)
        ensures c == MakeCall(c.platform, content, image, library, tokens)
      {
        if c in head {
          assert c == MakeCall(order[0], content, image, library, tokens);
        } else {
          assert c in rest;
          assert c.platform in order[1..];
        }
      }
    }
  }

  /** The calls made for `order` follow the order, so there is at most one per platform. */
  lemma {:induction false} CallsForOrdered(order: seq<Platform>, content: map<string, string>, image: Option<string>,
                                           library: Option<LibraryImage>, tokens: map<string, string>)
    requires RanksIncrease(order)
    ensures |CallsFor(order, content, image, library, tokens)| <= |order|
    ensures CallsAscend(CallsFor(order, content, image, library, tokens))
  {
    if order != [] {
      var calls := CallsFor(order, content, image, library, tokens);
      var head := CallFor(order[0], content, image, library, tokens);
      var rest := CallsFor(order[1..], content, image, library, tokens);
      CallsForOrdered(order[1..], content, image, library, tokens);
      assert calls == head + rest;
      if head != [] {
        LaterCallsRankHigher(order, content, image, library, tokens);
        forall i, j | 0 <= i < j < |calls| ensures Rank(calls[i].platform) < Rank(calls[j].platform) {
          assert calls[j] == rest[j - 1];
          assert rest[j - 1] in rest;
          if 0 < i {
            assert calls[i] == rest[i - 1];
          }
        }
      }
    }
  }

  /** The calls for the rest of `order` are all for platforms ranked after its first. */
  lemma LaterCallsRankHigher(order: seq<Platform>, content: map<string, string>, image: Option<string>,
                             library: Option<LibraryImage>, tokens: map<string, string>)
    requires RanksIncrease(order) && order != []
    ensures forall c <- CallsFor(order[1..], content, image, library, tokens) :: Rank(order[0]) < Rank(c.platform)
  {
    CallsForWanted(order[1..], content, image, library, tokens);
    forall c | c in CallsFor(order[1..], content, image, library, tokens) ensures Rank(order[0]) < Rank(c.platform) {
      var k :| 0 <= k < |order[1..]| && order[1..][k] == c.platform;
      assert order[k + 1] == c.platform;
    }
  }

  /** A platform of `order` gets a call exactly when it is wanted. */
  lemma {:induction false} CallsForComplete(order: seq<Platform>, content: map<string, string>, image: Option<string>,
                                            library: Option<LibraryImage>, tokens: map<string, string>, p: Platform)
    requires RanksIncrease(order) && p in order
    ensures (exists c <- CallsFor(order, content, image, library, tokens) :: c.platform == p)
      <==> Wanted(p, content, image, library)
  {
    var calls := CallsFor(order, content, image, library, tokens);
    var head := CallFor(order[0], content, image, library, tokens);
    var rest := CallsFor(order[1..], content, image, library, tokens);
    assert calls == head + rest;
    if order[0] == p {
      if head != [] {
        assert head[0] in calls;
      } else {
        CallsForWanted(order[1..], content, image, library, tokens);
        forall c | c in rest ensures c.platform != p {
          var k :| 0 <= k < |order[1..]| && order[1..][k] == c.platform;
          assert Rank(order[0]) < Rank(order[k + 1]);
        }
      }
    } else {
      assert p in order[1..];
      CallsForComplete(order[1..], content, image, library, tokens, p);
      if exists c <- rest :: c.platform == p {
        var c :| c in rest && c.platform == p;
        assert c in calls;
      }
    }
  }

  /** What `publishToAllPlatforms` dispatches: at most four calls, in the order facebook,
      twitter, linkedin, instagram, one for each platform whose content entry is non-empty
      (LinkedIn and Instagram only when some image is there), each with its own text, the token
      stored under its name and the image `image || libraryImage?.src`. */
  lemma DispatchedCalls(content: map<string, string>, image: Option<string>, library: Option<LibraryImage>,
                        tokens: map<string, string>)
    ensures |Dispatched(content, image, library, tokens)| <= 4
    ensures CallsAscend(Dispatched(content, image, library, tokens))
    ensures forall c <- Dispatched(content, image, library, tokens) ::
      && Truthy(Get(content, Name(c.platform))) && c.text == content[Name(c.platform)]
      && c.accessToken == Get(tokens, Name(c.platform))
      && c.image == ImageOrLibrary(image, library)
    ensures forall p: Platform ::
      (exists c <- Dispatched(content, image, library, tokens) :: c.platform == p) <==> Wanted(p, content, image, library)
  {
    assert RanksIncrease(DispatchOrder);
    CallsForWanted(DispatchOrder, content, image, library, tokens);
    CallsForOrdered(DispatchOrder, content, image, library, tokens);
    forall p: Platform
      ensures (exists c <- Dispatched(content, image, library, tokens) :: c.platform == p)
                <==> Wanted(p, content, image, library)
    {
      assert DispatchOrder[Rank(p)] == p;
      CallsForComplete(DispatchOrder, content, image, library, tokens, p);
    }
  }

  datatype CharacterLimits = CharacterLimits(facebook: int, instagram: int, twitter: int, linkedin: int)

  datatype PostConfiguration = PostConfiguration(socialCharLimits: CharacterLimits)

  /** What the configuration query gave: a document, no document, or a database error. */
  datatype ConfigQuery = Found(config: PostConfiguration) | NoDocument | DatabaseError(message: string)

  const FetchErrorPrefix := "Error fetching character limits: "
  const NotFoundMessage := "Post configuration not found"

  /** The configured character limits; a missing document or a failed query is an error whose
      message is prefixed with "Error fetching character limits: ". */
  function FetchCharacterLimits(query: ConfigQuery): (r: Result<CharacterLimits, string>)
    ensures r.Ok? <==> query.Found?
    ensures query.Found? ==> r.value == query.config.socialCharLimits
    ensures r.Err? ==> FetchErrorPrefix <= r.error
    ensures query.NoDocument? ==> r.error == FetchErrorPrefix + NotFoundMessage
    ensures query.DatabaseError? ==> r.error[|FetchErrorPrefix|..] == query.message
  {
    match query
    case Found(config) => Ok(config.socialCharLimits)
    case NoDocument => Err(FetchErrorPrefix + NotFoundMessage)
    case DatabaseError(message) => Err(FetchErrorPrefix + message)
  }
}
