/**
 * The request builders of the Contentful client: for every call the URL,
 * the method, the headers and the body that the client sends. Sending the
 * request and reading its response are not part of this module; the
 * screens pass in what the server answered.
 */
module Contentful {
  import opened Wrappers
  import opened Json
  import Strings

  /** The credential pair handed out by the token-exchange proxy. */
  datatype Tokens = Tokens(accessToken: string, spaceId: string)

  /** A local file read into memory, with its declared MIME type (`blob.type`). */
  datatype Blob = Blob(bytes: seq<bv8>, mimeType: string)

  /** A published asset as the server returns it: its `sys.id` and the URL
      of its processed file. */
  datatype PublishedAsset = PublishedAsset(id: string, url: string)

  /** What the draft screen passes to `createEntry`. */
  datatype EntryDraft = EntryDraft(
    title: string,
    body: string,
    isMilo: bool,
    isOliver: bool,
    images: seq<PublishedAsset>,
    publishDate: string)

  datatype HttpMethod = Post | Put

  datatype Body =
    | NoBody
    | OctetStream(blob: Blob)
    | JsonText(json: Json)

  datatype Request = Request(verb: HttpMethod, url: string, headers: map<string, string>, body: Body)

  const MiloTagId := "7pc56m8PVtvdsCW3lHXvHF"
  const OliverTagId := "7lqX3SAtFmVC0ecUd49FrN"

  /** `{sys: {type: "Link", linkType, id}}`: a reference to another record. */
  function Link(linkType: string, id: string): Json
  {
    JObj(map["sys" := JObj(map["type" := JStr("Link"), "linkType" := JStr(linkType), "id" := JStr(id)])])
  }

  /** `{"en-US": v}`: a field value in the space's only locale. */
  function Localized(v: Json): Json
  {
    JObj(map["en-US" := v])
  }

  function MiloTag(): Json { Link("Entry", MiloTagId) }

  function OliverTag(): Json { Link("Entry", OliverTagId) }

  function Bearer(tokens: Tokens): string
  {
    "Bearer " + tokens.accessToken
  }

  /** `https://upload.contentful.com/spaces/{spaceId}/uploads`, written as
      its "/"-separated segments (the empty one stands between the two
      slashes after the scheme). */
  function UploadUrl(spaceId: string): string
  {
    Strings.Join(["https:", "", "upload.contentful.com", "spaces", spaceId, "uploads"], '/')
  }

  /** The segments of `https://api.contentful.com/spaces/{spaceId}/environments/master`,
      the management API root of the space's `master` environment. */
  function ApiRootSegments(spaceId: string): seq<string>
  {
    ["https:", "", "api.contentful.com", "spaces", spaceId, "environments", "master"]
  }

  /** A management-API URL: the root followed by the given path segments. */
  function ApiUrl(spaceId: string, path: seq<string>): string
  {
    Strings.Join(ApiRootSegments(spaceId) + path, '/')
  }

  // ---------------------------------------------------------------- tags

  /** `xs.filter((x, i) => keep(i))`, where the index of `xs[0]` is `from`. */
  function FilterByIndex(xs: seq<Json>, keep: nat -> bool, from: nat): seq<Json>
    decreases |xs|
  {
    if xs == [] then []
    else (if keep(from) then [xs[0]] else []) + FilterByIndex(xs[1..], keep, from + 1)
  }

  /** The entry's tags: the two candidates filtered by their flags. */
  function Tags(isMilo: bool, isOliver: bool): seq<Json>
  {
    FilterByIndex([MiloTag(), OliverTag()], i => (i == 0 && isMilo) || (i == 1 && isOliver), 0)
  }

  /** The Milo tag is present exactly when its flag is set, the Oliver tag
      likewise, and Milo always comes first. */
  lemma TagsByFlags(isMilo: bool, isOliver: bool)
    ensures Tags(isMilo, isOliver) == (if isMilo then [MiloTag()] else []) + (if isOliver then [OliverTag()] else [])
  {
    var keep := i => (i == 0 && isMilo) || (i == 1 && isOliver);
    var xs := [MiloTag(), OliverTag()];
    assert xs[1..][1..] == [];
    assert FilterByIndex(xs[1..], keep, 1) == (if isOliver then [OliverTag()] else []) + FilterByIndex([], keep, 2);
  }

  /** The four flag combinations, spelled out. */
  lemma TagCombinations()
    ensures Tags(true, true) == [MiloTag(), OliverTag()]
    ensures Tags(true, false) == [MiloTag()]
    ensures Tags(false, true) == [OliverTag()]
    ensures Tags(false, false) == []
  {
    TagsByFlags(true, true);
    TagsByFlags(true, false);
    TagsByFlags(false, true);
    TagsByFlags(false, false);
  }

  // -------------------------------------------------------- cover images

  /** `images.map(image => link to image.sys.id)`. */
  function CoverImages(images: seq<PublishedAsset>): seq<Json>
    decreases |images|
  {
    if images == [] then [] else [Link("Asset", images[0].id)] + CoverImages(images[1..])
  }

  /** One Asset link per image, in the images' order, each naming that image's id. */
  lemma {:induction false} CoverImagesLinkEachImage(images: seq<PublishedAsset>)
    ensures |CoverImages(images)| == |images|
    ensures forall i :: 0 <= i < |images| ==>
              At(CoverImages(images)[i], ["sys", "type"]) == Some(JStr("Link")) &&
              At(CoverImages(images)[i], ["sys", "linkType"]) == Some(JStr("Asset")) &&
              At(CoverImages(images)[i], ["sys", "id"]) == Some(JStr(images[i].id))
    decreases |images|
  {
    if images != [] {
      CoverImagesLinkEachImage(images[1..]);
      var links := CoverImages(images);
      forall i | 0 <= i < |images|
        ensures At(links[i], ["sys", "type"]) == Some(JStr("Link"))
        ensures At(links[i], ["sys", "linkType"]) == Some(JStr("Asset"))
        ensures At(links[i], ["sys", "id"]) == Some(JStr(images[i].id))
      {
        if i > 0 {
          assert links[i] == CoverImages(images[1..])[i - 1];
          assert images[i] == images[1..][i - 1];
        }
      }
    }
  }

  // ------------------------------------------------------------ bodies

  /** The body of the asset record that `linkUploadToAsset` creates. */
  function AssetRequestBody(uploadId: string, fileName: string, contentType: string): Json
  {
    JObj(map["fields" := JObj(map[
      "title" := Localized(JStr(fileName)),
      "file" := Localized(JObj(map[
        "contentType" := JStr(contentType),
        "fileName" := JStr(fileName),
        "uploadFrom" := Link("Upload", uploadId)]))])])
  }

  /** The body of the entry that `createEntry` creates. Its publish date is
      the time of the call, `now`; the draft's own publish date is not read. */
  function EntryRequestBody(draft: EntryDraft, now: string): Json
  {
    JObj(map["fields" := JObj(map[
      "coverImages" := Localized(JArr(CoverImages(draft.images))),
      "publishDate" := Localized(JStr(now)),
      "shortDescription" := Localized(JStr(draft.title)),
      "body" := Localized(JStr(draft.body)),
      "tags" := Localized(JArr(Tags(draft.isMilo, draft.isOliver)))])])
  }

  /** The user-edited publish date never reaches the request. */
  lemma EntryBodyIgnoresPublishDate(draft: EntryDraft, otherDate: string, now: string)
    ensures EntryRequestBody(draft, now) == EntryRequestBody(draft.(publishDate := otherDate), now)
  {
  }

  // ---------------------------------------------------------- requests

  /** `uploadImage`: the raw bytes, posted to the upload host. */
  function UploadImageRequest(tokens: Tokens, blob: Blob): Request
  {
    Request(Post, UploadUrl(tokens.spaceId),
      map["Accept" := "application/json",
          "Content-Type" := "application/octet-stream",
          "Authorization" := Bearer(tokens)],
      OctetStream(blob))
  }

  /** `processImage`: asks the server to process the file of an asset. */
  function ProcessImageRequest(tokens: Tokens, assetId: string): Request
  {
    Request(Put, ApiUrl(tokens.spaceId, ["assets", assetId, "files", "en-US", "process"]),
      map["Authorization" := Bearer(tokens)],
      NoBody)
  }

  /** `publishImage`'s deferred request: publishes an asset at version 2. */
  function PublishImageRequest(tokens: Tokens, assetId: string): Request
  {
    Request(Put, ApiUrl(tokens.spaceId, ["assets", assetId, "published"]),
      map["Authorization" := Bearer(tokens), "X-Contentful-Version" := "2"],
      NoBody)
  }

  /** `linkUploadToAsset`: creates an asset whose file comes from an upload. */
  function LinkUploadToAssetRequest(tokens: Tokens, uploadId: string, fileName: string, contentType: string): Request
  {
    Request(Post, ApiUrl(tokens.spaceId, ["assets"]),
      map["Accept" := "application/json",
          "Content-Type" := "application/json",
          "Authorization" := Bearer(tokens)],
      JsonText(AssetRequestBody(uploadId, fileName, contentType)))
  }

  /** `createEntry`: creates an entry of content type `post`. */
  function CreateEntryRequest(tokens: Tokens, draft: EntryDraft, now: string): Request
  {
    Request(Post, ApiUrl(tokens.spaceId, ["entries"]),
      map["Authorization" := Bearer(tokens), "X-Contentful-Content-Type" := "post"],
      JsonText(EntryRequestBody(draft, now)))
  }

  /** `publishEntry`: publishes an entry at version 1. */
  function PublishEntryRequest(tokens: Tokens, entryId: string): Request
  {
    Request(Put, ApiUrl(tokens.spaceId, ["entries", entryId, "published"]),
      map["Authorization" := Bearer(tokens), "X-Contentful-Version" := "1"],
      NoBody)
  }

  // ---------------------------------------------------- what is sent

  /** The fields of a link object. */
  lemma LinkFields(linkType: string, id: string)
    ensures At(Link(linkType, id), ["sys", "type"]) == Some(JStr("Link"))
    ensures At(Link(linkType, id), ["sys", "linkType"]) == Some(JStr(linkType))
    ensures At(Link(linkType, id), ["sys", "id"]) == Some(JStr(id))
  {
    assert ["sys", "type"][1..] == ["type"] && ["sys", "linkType"][1..] == ["linkType"] && ["sys", "id"][1..] == ["id"];
  }

  /** The asset record holds the file name both as its title and as the
      file's name, passes the content type through, and takes its file
      from a Link of type Upload naming the upload. */
  lemma AssetBodyFields(uploadId: string, fileName: string, contentType: string)
    ensures var j := AssetRequestBody(uploadId, fileName, contentType);
      && At(j, ["fields", "title", "en-US"]) == Some(JStr(fileName))
      && At(j, ["fields", "file", "en-US", "fileName"]) == Some(JStr(fileName))
      && At(j, ["fields", "file", "en-US", "contentType"]) == Some(JStr(contentType))
      && At(j, ["fields", "file", "en-US", "uploadFrom"]) == Some(Link("Upload", uploadId))
  {
  }

  /** The entry's short description is the title and its body the body;
      its publish date is the time of the call. */
  lemma EntryBodyText(draft: EntryDraft, now: string)
    ensures var j := EntryRequestBody(draft, now);
      && At(j, ["fields", "shortDescription", "en-US"]) == Some(JStr(draft.title))
      && At(j, ["fields", "body", "en-US"]) == Some(JStr(draft.body))
      && At(j, ["fields", "publishDate", "en-US"]) == Some(JStr(now))
  {
  }

  /** The entry's tags are the filtered tags and its cover images one link
      per image. */
  lemma EntryBodyLinks(draft: EntryDraft, now: string)
    ensures var j := EntryRequestBody(draft, now);
      && At(j, ["fields", "tags", "en-US"]) == Some(JArr(Tags(draft.isMilo, draft.isOliver)))
      && At(j, ["fields", "coverImages", "en-US"]) == Some(JArr(CoverImages(draft.images)))
  {
  }

  /** Every request is authorized with the access token, and the upload
      sends the blob's bytes as an octet stream. */
  lemma RequestsCarryAccessToken(tokens: Tokens, blob: Blob, id: string, uploadId: string, fileName: string,
                                 contentType: string, draft: EntryDraft, now: string)
    ensures var bearer := "Bearer " + tokens.accessToken;
      && UploadImageRequest(tokens, blob).headers["Authorization"] == bearer
      && ProcessImageRequest(tokens, id).headers["Authorization"] == bearer
      && PublishImageRequest(tokens, id).headers["Authorization"] == bearer
      && LinkUploadToAssetRequest(tokens, uploadId, fileName, contentType).headers["Authorization"] == bearer
      && CreateEntryRequest(tokens, draft, now).headers["Authorization"] == bearer
      && PublishEntryRequest(tokens, id).headers["Authorization"] == bearer
    ensures UploadImageRequest(tokens, blob).headers["Content-Type"] == "application/octet-stream"
    ensures UploadImageRequest(tokens, blob).body == OctetStream(blob)
  {
  }

  /** The two requests with a JSON body send the records built above, and
      an entry is created with content type `post`. */
  lemma RequestBodies(tokens: Tokens, uploadId: string, fileName: string, contentType: string,
                      draft: EntryDraft, now: string)
    ensures LinkUploadToAssetRequest(tokens, uploadId, fileName, contentType).verb == Post
    ensures LinkUploadToAssetRequest(tokens, uploadId, fileName, contentType).body ==
            JsonText(AssetRequestBody(uploadId, fileName, contentType))
    ensures CreateEntryRequest(tokens, draft, now).verb == Post
    ensures CreateEntryRequest(tokens, draft, now).body == JsonText(EntryRequestBody(draft, now))
    ensures CreateEntryRequest(tokens, draft, now).headers["X-Contentful-Content-Type"] == "post"
  {
  }

  /** The HTTP method of every request, and the `Accept` and `Content-Type`
      headers of the two requests that name them: the upload and the asset
      creation both ask for a JSON answer, and the asset creation sends JSON. */
  lemma RequestMethodsAndHeaders(tokens: Tokens, blob: Blob, id: string, uploadId: string, fileName: string,
                                 contentType: string)
    ensures UploadImageRequest(tokens, blob).verb == Post
    ensures LinkUploadToAssetRequest(tokens, uploadId, fileName, contentType).verb == Post
    ensures ProcessImageRequest(tokens, id).verb == Put
    ensures PublishImageRequest(tokens, id).verb == Put
    ensures PublishEntryRequest(tokens, id).verb == Put
    ensures UploadImageRequest(tokens, blob).headers["Accept"] == "application/json"
    ensures LinkUploadToAssetRequest(tokens, uploadId, fileName, contentType).headers["Accept"] == "application/json"
    ensures LinkUploadToAssetRequest(tokens, uploadId, fileName, contentType).headers["Content-Type"] == "application/json"
  {
  }

  /** No request sends a header beyond the ones its literal names, and the
      three PUTs send no body. */
  lemma RequestsSendNothingElse(tokens: Tokens, blob: Blob, id: string, uploadId: string, fileName: string,
                                contentType: string, draft: EntryDraft, now: string)
    ensures UploadImageRequest(tokens, blob).headers.Keys == {"Accept", "Content-Type", "Authorization"}
    ensures ProcessImageRequest(tokens, id).headers.Keys == {"Authorization"}
    ensures PublishImageRequest(tokens, id).headers.Keys == {"Authorization", "X-Contentful-Version"}
    ensures LinkUploadToAssetRequest(tokens, uploadId, fileName, contentType).headers.Keys ==
            {"Accept", "Content-Type", "Authorization"}
    ensures CreateEntryRequest(tokens, draft, now).headers.Keys == {"Authorization", "X-Contentful-Content-Type"}
    ensures PublishEntryRequest(tokens, id).headers.Keys == {"Authorization", "X-Contentful-Version"}
    ensures ProcessImageRequest(tokens, id).body == NoBody
    ensures PublishImageRequest(tokens, id).body == NoBody
    ensures PublishEntryRequest(tokens, id).body == NoBody
  {
  }

  // -------------------------------------------------------------- URLs

  /** Every management-API URL is the API root segments followed by a path,
      every segment separated from the next by "/". */
  lemma ApiUrlSegments(spaceId: string, path: seq<string>)
    requires '/' !in spaceId
    requires forall i :: 0 <= i < |path| ==> '/' !in path[i]
    ensures Strings.Split(ApiUrl(spaceId, path), '/') == ApiRootSegments(spaceId) + path
  {
    var segments := ApiRootSegments(spaceId) + path;
    assert '/' !in "https:" && '/' !in "api.contentful.com" && '/' !in "spaces";
    assert '/' !in "environments" && '/' !in "master";
    forall i | 0 <= i < |segments| ensures '/' !in segments[i] {
      if i >= 7 {
        assert segments[i] == path[i - 7];
      }
    }
    Strings.SplitJoin(segments, '/');
  }

  /** The upload URL is `https://upload.contentful.com/spaces/{spaceId}/uploads`,
      the space id one path segment of it. */
  lemma UploadUrlSegments(tokens: Tokens, blob: Blob)
    requires '/' !in tokens.spaceId
    ensures Strings.Split(UploadImageRequest(tokens, blob).url, '/') ==
            ["https:", "", "upload.contentful.com", "spaces", tokens.spaceId, "uploads"]
  {
    assert '/' !in "https:" && '/' !in "upload.contentful.com" && '/' !in "spaces" && '/' !in "uploads";
    Strings.SplitJoin(["https:", "", "upload.contentful.com", "spaces", tokens.spaceId, "uploads"], '/');
  }

  /** Every asset and entry URL lies under the API root of the space, and an
      asset or entry id fills exactly one path segment. */
  lemma ApiRequestUrlSegments(tokens: Tokens, id: string, uploadId: string, fileName: string,
                              contentType: string, draft: EntryDraft, now: string)
    requires '/' !in tokens.spaceId && '/' !in id
    ensures var root := ApiRootSegments(tokens.spaceId);
      && Strings.Split(LinkUploadToAssetRequest(tokens, uploadId, fileName, contentType).url, '/') == root + ["assets"]
      && Strings.Split(ProcessImageRequest(tokens, id).url, '/') == root + ["assets", id, "files", "en-US", "process"]
      && Strings.Split(PublishImageRequest(tokens, id).url, '/') == root + ["assets", id, "published"]
      && Strings.Split(CreateEntryRequest(tokens, draft, now).url, '/') == root + ["entries"]
      && Strings.Split(PublishEntryRequest(tokens, id).url, '/') == root + ["entries", id, "published"]
  {
    var s := tokens.spaceId;
    assert '/' !in "assets" && '/' !in "entries" && '/' !in "published";
    assert '/' !in "files" && '/' !in "en-US" && '/' !in "process";
    ApiUrlSegments(s, ["assets"]);
    ApiUrlSegments(s, ["assets", id, "files", "en-US", "process"]);
    ApiUrlSegments(s, ["assets", id, "published"]);
    ApiUrlSegments(s, ["entries"]);
    ApiUrlSegments(s, ["entries", id, "published"]);
  }

  /** The literal texts of the URLs, spelled segment by segment. */
  lemma UploadPrefix()
    ensures "https:" + "/" + "" + "/" + "upload.contentful.com" + "/" + "spaces" + "/" == "https://upload.contentful.com/spaces/"
  {
  }

  lemma ApiPrefix()
    ensures "https:" + "/" + "" + "/" + "api.contentful.com" + "/" + "spaces" + "/" == "https://api.contentful.com/spaces/"
  {
  }

  lemma EnvironmentSuffix()
    ensures "/" + "environments" + "/" + "master" == "/environments/master"
  {
  }

  lemma AssetsPrefix()
    ensures "/" + "assets" + "/" == "/assets/"
  {
  }

  lemma EntriesPrefix()
    ensures "/" + "entries" + "/" == "/entries/"
  {
  }

  lemma ProcessSuffix()
    ensures "/" + "files" + "/" + "en-US" + "/" + "process" == "/files/en-US/process"
  {
  }

  /** The upload URL written with segments is the template literal the
      client writes, for every space id. */
  lemma UploadUrlIsTemplate(tokens: Tokens, blob: Blob)
    ensures UploadImageRequest(tokens, blob).url ==
            "https://upload.contentful.com/spaces/" + tokens.spaceId + "/uploads"
  {
    var s := tokens.spaceId;
    Strings.JoinSix("https:", "", "upload.contentful.com", "spaces", s, "uploads", '/');
    UploadPrefix();
    var pre := "https:" + "/" + "" + "/" + "upload.contentful.com" + "/" + "spaces" + "/";
    assert "https:" + "/" + "" + "/" + "upload.contentful.com" + "/" + "spaces" + "/" + s + "/" + "uploads"
        == pre + s + ("/" + "uploads");
  }

  /** `https://api.contentful.com/spaces/${spaceId}/environments/master`,
      the part every management URL's template literal begins with. */
  function ApiRoot(spaceId: string): string
  {
    "https://api.contentful.com/spaces/" + spaceId + "/environments/master"
  }

  /** The root segments joined are the root of the space's master
      environment. */
  lemma ApiRootIsTemplate(spaceId: string)
    ensures Strings.Join(ApiRootSegments(spaceId), '/') == ApiRoot(spaceId)
  {
    var s := spaceId;
    Strings.JoinSeven("https:", "", "api.contentful.com", "spaces", s, "environments", "master", '/');
    var pre := "https:" + "/" + "" + "/" + "api.contentful.com" + "/" + "spaces" + "/";
    ApiPrefix();
    EnvironmentSuffix();
    assert "https:" + "/" + "" + "/" + "api.contentful.com" + "/" + "spaces" + "/" + s + "/" + "environments" + "/" + "master"
        == pre + s + ("/" + "environments" + "/" + "master");
  }

  /** A management URL is the root of the space's master environment,
      then "/" and its path. */
  lemma ApiUrlIsTemplate(spaceId: string, path: seq<string>)
    requires |path| >= 1
    ensures ApiUrl(spaceId, path) == ApiRoot(spaceId) + "/" + Strings.Join(path, '/')
  {
    Strings.JoinAppend(ApiRootSegments(spaceId), path, '/');
    ApiRootIsTemplate(spaceId);
  }

  /** A path of an id between two fixed segments, joined. */
  lemma IdPathJoin(first: string, id: string, last: string)
    ensures Strings.Join([first, id, last], '/') == first + "/" + id + "/" + last
  {
    var p := [first, id, last];
    Strings.JoinStep(p, 0, '/');
    Strings.JoinStep(p, 1, '/');
    assert p[0..] == p && p[2..] == [last];
  }

  /** `linkUploadToAsset` posts to the template literal `${root}/assets`. */
  lemma LinkUrlIsTemplate(tokens: Tokens, uploadId: string, fileName: string, contentType: string)
    ensures LinkUploadToAssetRequest(tokens, uploadId, fileName, contentType).url == ApiRoot(tokens.spaceId) + "/assets"
  {
    ApiUrlIsTemplate(tokens.spaceId, ["assets"]);
  }

  /** `processImage` puts to `${root}/assets/${assetId}/files/en-US/process`. */
  lemma ProcessUrlIsTemplate(tokens: Tokens, id: string)
    ensures ProcessImageRequest(tokens, id).url == ApiRoot(tokens.spaceId) + "/assets/" + id + "/files/en-US/process"
  {
    ApiUrlIsTemplate(tokens.spaceId, ["assets", id, "files", "en-US", "process"]);
    Strings.JoinAppend(["assets", id], ["files", "en-US", "process"], '/');
    IdPathJoin("files", "en-US", "process");
    ProcessSuffix();
    AssetsPrefix();
  }

  /** `publishImage` puts to `${root}/assets/${assetId}/published`. */
  lemma PublishImageUrlIsTemplate(tokens: Tokens, id: string)
    ensures PublishImageRequest(tokens, id).url == ApiRoot(tokens.spaceId) + "/assets/" + id + "/published"
  {
    ApiUrlIsTemplate(tokens.spaceId, ["assets", id, "published"]);
    IdPathJoin("assets", id, "published");
    AssetsPrefix();
  }

  /** `createEntry` posts to `${root}/entries`. */
  lemma CreateEntryUrlIsTemplate(tokens: Tokens, draft: EntryDraft, now: string)
    ensures CreateEntryRequest(tokens, draft, now).url == ApiRoot(tokens.spaceId) + "/entries"
  {
    ApiUrlIsTemplate(tokens.spaceId, ["entries"]);
  }

  /** `publishEntry` puts to `${root}/entries/${id}/published`. */
  lemma PublishEntryUrlIsTemplate(tokens: Tokens, id: string)
    ensures PublishEntryRequest(tokens, id).url == ApiRoot(tokens.spaceId) + "/entries/" + id + "/published"
  {
    ApiUrlIsTemplate(tokens.spaceId, ["entries", id, "published"]);
    IdPathJoin("entries", id, "published");
    EntriesPrefix();
  }

  /** The version headers are fixed: 2 for an asset, 1 for an entry,
      whatever the tokens and ids. */
  lemma PublishVersionsAreFixed(tokens: Tokens, assetId: string, entryId: string)
    ensures "X-Contentful-Version" in PublishImageRequest(tokens, assetId).headers
    ensures PublishImageRequest(tokens, assetId).headers["X-Contentful-Version"] == "2"
    ensures "X-Contentful-Version" in PublishEntryRequest(tokens, entryId).headers
    ensures PublishEntryRequest(tokens, entryId).headers["X-Contentful-Version"] == "1"
  {
  }

  /** The list that `publishImage` hands to `setImages`: `images.concat([image])`. */
  function AppendPublished(images: seq<PublishedAsset>, image: PublishedAsset): (r: seq<PublishedAsset>)
    ensures |r| == |images| + 1
    ensures r[..|images|] == images && r[|images|] == image
  {
    images + [image]
  }
}
