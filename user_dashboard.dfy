/** The user's dashboard: three tabs (received videos, own uploads, the
    upload form), the video lists each tab fetches, and the shared video
    viewer and download. */
module UserDashboardPage {
  import opened Common
  import opened Media

  datatype Tab = ReceivedTab | MyTab | UploadTab

  /** Which list a fetch fills. */
  datatype VideoList = UploadedList | ReceivedList

  datatype Fetch = Fetch(path: string, into: VideoList)

  /** The fetch the tab effect issues for each tab. */
  function TabFetch(tab: Tab): (f: Option<Fetch>)
    ensures f.None? <==> tab == UploadTab
    ensures f.Some? ==> (f.value.into == UploadedList <==> tab == MyTab)
    ensures tab == MyTab ==> f == Some(Fetch("/videos/my", UploadedList))
    ensures tab == ReceivedTab ==> f == Some(Fetch("/videos", ReceivedList))
  {
    match tab
    case MyTab => Some(Fetch("/videos/my", UploadedList))
    case ReceivedTab => Some(Fetch("/videos", ReceivedList))
    case UploadTab => None
  }

  /** Distinct tabs never fetch the same endpoint. */
  lemma TabFetchesDistinct(a: Tab, b: Tab)
    requires a != b && TabFetch(a).Some? && TabFetch(b).Some?
    ensures TabFetch(a).value.path != TabFetch(b).value.path
  {
  }

  class UserDashboard {
    var activeTab: Tab
    var uploadedVideos: seq<Video>
    var receivedVideos: seq<Video>
    var loading: bool
    const viewer: VideoViewer

    ghost predicate Valid()
      reads this, viewer, viewer.urls
    {
      viewer.Valid()
    }

    constructor ()
      ensures Valid() && fresh(viewer) && fresh(viewer.urls)
      ensures activeTab == ReceivedTab && uploadedVideos == [] && receivedVideos == []
      ensures !loading && viewer.url.None?
    {
      activeTab := ReceivedTab;
      uploadedVideos, receivedVideos := [], [];
      loading := false;
      viewer := new VideoViewer();
    }

    /** The effect keyed on the active tab, run on mount and whenever the
        tab changes: it fetches the tab's list, storing it on success and
        clearing `loading` either way; the upload tab fetches nothing. */
    method TabEffect(resp: Response<seq<Video>>) returns (req: Option<Request>)
      modifies this`uploadedVideos, this`receivedVideos, this`loading
      ensures req.Some? <==> TabFetch(activeTab).Some?
      ensures req.Some? ==> req.value == Request(Get, TabFetch(activeTab).value.path, NoBody) && !loading
      ensures req.None? ==> loading == old(loading)
      ensures uploadedVideos == if activeTab == MyTab && resp.Success? then resp.data else old(uploadedVideos)
      ensures receivedVideos == if activeTab == ReceivedTab && resp.Success? then resp.data else old(receivedVideos)
    {
      req := None;
      match TabFetch(activeTab)
      case Some(fetch) =>
        loading := true;
        req := Some(Request(Get, fetch.path, NoBody));
        if resp.Success? {
          if fetch.into == UploadedList {
            uploadedVideos := resp.data;
          } else {
            receivedVideos := resp.data;
          }
        }
        loading := false;
      case None =>
    }

    /** A tab button: choosing the tab already shown changes nothing (the
        effect does not re-run); another tab becomes active and its effect
        runs. */
    method SelectTab(tab: Tab, resp: Response<seq<Video>>) returns (req: Option<Request>)
      modifies this`activeTab, this`uploadedVideos, this`receivedVideos, this`loading
      ensures activeTab == tab
      ensures tab == old(activeTab) ==> req.None? && unchanged(this)
      ensures tab != old(activeTab) ==>
                (req.Some? <==> tab != UploadTab) &&
                (req.Some? ==> req.value == Request(Get, TabFetch(tab).value.path, NoBody) && !loading)
      ensures req.None? ==> loading == old(loading)
      ensures uploadedVideos == if tab != old(activeTab) && tab == MyTab && resp.Success? then resp.data else old(uploadedVideos)
      ensures receivedVideos == if tab != old(activeTab) && tab == ReceivedTab && resp.Success? then resp.data else old(receivedVideos)
    {
      if tab == activeTab {
        req := None;
      } else {
        activeTab := tab;
        req := TabEffect(resp);
      }
    }

    /** `handleDownload`: saves the video under DownloadName; no object URL
        stays live and the viewer is untouched. */
    method HandleDownload(video: Video, resp: Response<DownloadBody>) returns (req: Request, savedAs: Option<string>)
      requires Valid()
      modifies viewer.urls
      ensures Valid() && viewer.urls.live == old(viewer.urls.live)
      ensures req == DownloadRequest(video)
      ensures savedAs == if resp.Success? then Some(DownloadName(video.title, resp.data.contentDisposition)) else None
    {
      req, savedAs := Download(viewer.urls, video, resp);
    }

    /** `handleView`: the open video's URL is revoked before a new one is
        created; on failure the viewer is left empty. */
    method HandleView(video: Video, resp: Response<DownloadBody>) returns (req: Request)
      requires Valid()
      modifies viewer, viewer.urls
      ensures Valid() && unchanged(this)
      ensures req == DownloadRequest(video)
      ensures resp.Success? ==> viewer.url.Some? && viewer.title == Some(video.title)
      ensures resp.Success? ==>
                forall k :: 0 <= k < |old(viewer.urls.log)| && old(viewer.urls.log)[k].Created? ==>
                  old(viewer.urls.log)[k].url != viewer.url.value
      ensures resp.Failure? ==> viewer.url.None? && viewer.title.None?
      ensures viewer.urls.log == old(viewer.urls.log) + RevokeOf(old(viewer.url)) +
                                 (if resp.Success? then [Created(viewer.url.value)] else [])
    {
      req := viewer.View(video, resp);
    }

    /** `closeViewer`. */
    method CloseViewer()
      requires Valid()
      modifies viewer, viewer.urls
      ensures Valid() && unchanged(this)
      ensures viewer.url.None? && viewer.title.None? && viewer.urls.live == {}
      ensures viewer.urls.log == old(viewer.urls.log) + RevokeOf(old(viewer.url))
    {
      viewer.Close();
    }
  }
}
