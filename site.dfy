/** The page-load sequence of the slider page: scripts/projects.js renders the fetched
    projects and dispatches `projectsLoaded`; scripts/slider.js listens for that event and
    runs `initSlider` over the track's new children. Neither script knows the other; the
    event is the only link, and this module plays the event bus. */
module Site {
  import opened Common
  import opened Records
  import CardRenderer
  import Slider

  /** The fetch completes. A freshly built card has no `active` attribute. The renderer and
      the slider share the `#dots` container: the renderer empties it and `initSlider` fills
      it again, so the page's dot count follows the slider's dots. */
  method OnProjectsFetched(page: CardRenderer.ProjectsPage, slider: Slider.SliderController,
                           response: Fetch<seq<Project>>, vp: Slider.Viewport)
    requires slider.Valid()
    requires response.Loaded? ==> |vp.boxes| == |response.value|
    modifies page, slider
    ensures slider.Valid()
    ensures response.Loaded? ==>
              page.track == CardRenderer.Cards(response.value) &&
              slider.initialized && slider.current == 0 &&
              |slider.cards| == |slider.dots| == |response.value| &&
              (forall k :: 0 <= k < |slider.cards| ==> (slider.cards[k] <==> k == 0)) &&
              (forall k :: 0 <= k < |slider.dots| ==> (slider.dots[k] <==> k == 0)) &&
              (old(slider.prev).Some? ==> slider.prev == Some(true)) &&
              (old(slider.prev).None? ==> slider.prev == None) &&
              (old(slider.next).None? ==> slider.next == None) &&
              (old(slider.next).Some? ==> slider.next == Some(|response.value| == 1))
    ensures response.Loaded? ==> page.loadedEvents == old(page.loadedEvents) + [page.track]
    ensures response.Loaded? ==> page.dots == |slider.dots| == |page.track|
    ensures response.Loaded? ==>
              slider.scrolls == old(slider.scrolls) + Slider.CenterLog(vp, 0) &&
              slider.sx == 0 && slider.sy == 0
    ensures response.Failed? ==>
              page.track == old(page.track) && page.loadedEvents == old(page.loadedEvents) &&
              page.dots == old(page.dots) &&
              slider.State() == old(slider.State()) && slider.initialized == old(slider.initialized) &&
              slider.scrolls == old(slider.scrolls) && slider.sx == old(slider.sx) && slider.sy == old(slider.sy)
    ensures response.Failed? ==> unchanged(slider)
  {
    var before := |page.loadedEvents|;
    page.Load(response);
    if |page.loadedEvents| > before {
      var newCards := seq(|page.track|, k => false);
      slider.Init(newCards, vp);
      page.dots := |slider.dots|;
    }
  }

  /** Five projects fetched: five cards and five dots, card 0 active, prev disabled, next
      enabled; a step past the last card then stays on it. */
  method FiveProjects(projects: seq<Project>, vp: Slider.Viewport)
    requires |projects| == 5 && |vp.boxes| == 5
  {
    var page := new CardRenderer.ProjectsPage([], 0);
    var slider := new Slider.SliderController(Some(false), Some(false));
    OnProjectsFetched(page, slider, Loaded(projects), vp);
    assert |page.track| == 5 && |slider.cards| == 5 && |slider.dots| == 5;
    assert slider.cards[0] && !slider.cards[1];
    assert slider.prev == Some(true) && slider.next == Some(false);
    slider.ClickCard(4, vp);
    assert slider.current == 4 && slider.next == Some(true);
    slider.Go(1, vp);
    assert slider.current == 4;
    slider.Resize(vp);
    assert slider.current == 4;
  }

  /** A page without prev/next buttons: clicks on them cannot reach the slider. */
  method NoButtons(projects: seq<Project>, vp: Slider.Viewport)
    requires |projects| == 5 && |vp.boxes| == 5
  {
    var page := new CardRenderer.ProjectsPage([], 0);
    var slider := new Slider.SliderController(None, None);
    OnProjectsFetched(page, slider, Loaded(projects), vp);
    slider.ClickCard(2, vp);
    assert slider.current == 2 && slider.prev == None;
    slider.ClickPrev(vp);
    assert slider.current == 2;
  }

  /** A failed fetch renders nothing and never initialises the slider. */
  method FetchFails(vp: Slider.Viewport)
    requires vp.boxes == []
  {
    var page := new CardRenderer.ProjectsPage([], 0);
    var slider := new Slider.SliderController(Some(false), Some(false));
    OnProjectsFetched(page, slider, Failed, vp);
    assert page.track == [] && !slider.initialized && page.loadedEvents == [];
  }
}
