/** The card renderer of scripts/projects.js: on a successful fetch it empties the track
    and the dots container, appends one card per project in input order, and then
    dispatches `projectsLoaded`. The fetch outcome is a parameter. */
module CardRenderer {
  import opened Common
  import opened Records

  /** One `article.slider-card`: its `data-title` attribute and the content of its template. */
  datatype Card = Card(
    dataTitle: string,
    imageSrc: string,
    imageAlt: string,
    badge: string,
    heading: string,
    description: string,
    link: string)

  /** The card built from one project record. */
  function CardOf(p: Project): Card
  {
    Card(p.title, p.image, p.title, p.badge, p.title, p.description, p.link)
  }

  /** The track after rendering `projects`. */
  function Cards(projects: seq<Project>): (r: seq<Card>)
    ensures |r| == |projects|
    ensures forall k :: 0 <= k < |r| ==> r[k] == CardOf(projects[k])
  {
    seq(|projects|, k requires 0 <= k < |projects| => CardOf(projects[k]))
  }

  /** Card k shows project k: its title (also as `data-title`), image, badge, description
      and link. */
  lemma CardShowsProject(projects: seq<Project>, k: int)
    requires 0 <= k < |projects|
    ensures var c := Cards(projects)[k];
            c.dataTitle == projects[k].title && c.heading == projects[k].title &&
            c.imageSrc == projects[k].image && c.imageAlt == projects[k].title &&
            c.badge == projects[k].badge && c.description == projects[k].description &&
            c.link == projects[k].link
  {
  }

  /** The slider page as the renderer sees it. */
  class ProjectsPage {
    /** The children of `#track`, in order. */
    var track: seq<Card>
    /** How many children `#dots` holds. */
    var dots: nat
    /** The track as it was at each `projectsLoaded` dispatch, oldest first. */
    var loadedEvents: seq<seq<Card>>

    constructor (staticCards: seq<Card>, staticDots: nat)
      ensures track == staticCards && dots == staticDots && loadedEvents == []
    {
      track := staticCards;
      dots := staticDots;
      loadedEvents := [];
    }

    /** The fetch handler. On success: clear track and dots, append every card, then
        dispatch once. On a fetch or parse error only the console is written. */
    method Load(response: Fetch<seq<Project>>)
      modifies this
      ensures response.Loaded? ==> track == Cards(response.value) && dots == 0
      ensures response.Loaded? ==> loadedEvents == old(loadedEvents) + [Cards(response.value)]
      ensures response.Failed? ==> track == old(track) && dots == old(dots) && loadedEvents == old(loadedEvents)
    {
      match response
      case Failed =>
      case Loaded(projects) =>
        track := [];
        dots := 0;
        var k := 0;
        while k < |projects|
          invariant 0 <= k <= |projects|
          invariant |track| == k && forall j :: 0 <= j < k ==> track[j] == CardOf(projects[j])
          invariant dots == 0 && loadedEvents == old(loadedEvents)
        {
          track := track + [CardOf(projects[k])];
          k := k + 1;
        }
        assert track == Cards(projects);
        loadedEvents := loadedEvents + [track];
    }
  }
}
