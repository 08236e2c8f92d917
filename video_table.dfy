/** The admin's table of every uploaded video: fetched on mount, with
    view, download and confirmed delete per row. */
module VideoTableView {
  import opened Common
  import opened Media

  const AllVideosPath := "/videos/all"

  function VideoId(v: Video): Id
  {
    v.id
  }

  function DeleteVideoRequest(id: Id): (r: Request)
    ensures r.verb == Delete && r.body == NoBody
    ensures r.path == "/videos/" + IdText(id)
  {
    Request(Delete, "/videos/" + IdText(id), NoBody)
  }

  /** Two delete requests are equal only for the same video id. */
  lemma DeleteVideoRequestNamesVideo(a: Id, b: Id)
    ensures DeleteVideoRequest(a) == DeleteVideoRequest(b) ==> a == b
  {
    if DeleteVideoRequest(a) == DeleteVideoRequest(b) {
      assert "/videos/" + IdText(a) + "" == "/videos/" + IdText(b) + "";
      IdInPathInjective("/videos/", "", a, b);
    }
  }

  class VideoTable {
    var videos: seq<Video>
    var loading: bool
    const viewer: VideoViewer

    ghost predicate Valid()
      reads this, viewer, viewer.urls
    {
      viewer.Valid()
    }

    /** The table starts empty and loading. */
    constructor ()
      ensures Valid() && fresh(viewer) && fresh(viewer.urls)
      ensures videos == [] && loading && viewer.url.None?
    {
      videos := [];
      loading := true;
      viewer := new VideoViewer();
    }

    /** `fetchVideos`, run on mount: the list is replaced on success, kept
        on failure, and `loading` is false afterwards. */
    method FetchVideos(resp: Response<seq<Video>>) returns (req: Request)
      modifies this`videos, this`loading
      ensures req == Request(Get, AllVideosPath, NoBody)
      ensures !loading
      ensures videos == if resp.Success? then resp.data else old(videos)
    {
      loading := true;
      req := Request(Get, AllVideosPath, NoBody);
      if resp.Success? {
        videos := resp.data;
      }
      loading := false;
    }

    /** `handleDelete`: a declined confirmation sends nothing; a confirmed
        one sends one delete, and only its success removes the rows whose
        id matches. */
    method HandleDelete(id: Id, confirmed: bool, resp: Response<Unit>) returns (req: Option<Request>)
      modifies this`videos
      ensures !confirmed ==> req.None? && videos == old(videos)
      ensures confirmed ==> req == Some(DeleteVideoRequest(id))
      ensures videos == if confirmed && resp.Success? then RemoveId(old(videos), VideoId, id) else old(videos)
    {
      if !confirmed {
        req := None;
        return;
      }
      req := Some(DeleteVideoRequest(id));
      if resp.Success? {
        videos := RemoveId(videos, VideoId, id);
      }
    }

    /** `handleDownload`, shared with the user dashboard. */
    method HandleDownload(video: Video, resp: Response<DownloadBody>) returns (req: Request, savedAs: Option<string>)
      requires Valid()
      modifies viewer.urls
      ensures Valid() && viewer.urls.live == old(viewer.urls.live)
      ensures req == DownloadRequest(video)
      ensures savedAs == if resp.Success? then Some(DownloadName(video.title, resp.data.contentDisposition)) else None
    {
      req, savedAs := Download(viewer.urls, video, resp);
    }

    /** `handleView`, shared with the user dashboard. */
    method HandleView(video: Video, resp: Response<DownloadBody>) returns (req: Request)
      requires Valid()
      modifies viewer, viewer.urls
      ensures Valid() && unchanged(this)
      ensures req == DownloadRequest(video)
      ensures resp.Success? ==> viewer.url.Some? && viewer.title == Some(video.title)
      ensures resp.Success? ==>
                forall k :: 0 <= k < |old(viewer.urls.log)| && old(viewer.urls.log)[k].Created? ==>
                  old(viewer.urls.log)[k].url != viewer.url.value
      ensures resp.Failure? ==> viewer.url.None? && viewer.title.None?
      ensures viewer.urls.log == old(viewer.urls.log) + RevokeOf(old(viewer.url)) +
                                 (if resp.Success? then [Created(viewer.url.value)] else [])
    {
      req := viewer.View(video, resp);
    }

    /** `closeViewer`, shared with the user dashboard. */
    method CloseViewer()
      requires Valid()
      modifies viewer, viewer.urls
      ensures Valid() && unchanged(this)
      ensures viewer.url.None? && viewer.title.None? && viewer.urls.live == {}
      ensures viewer.urls.log == old(viewer.urls.log) + RevokeOf(old(viewer.url))
    {
      viewer.Close();
    }
  }
}
