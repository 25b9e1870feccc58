/** The breadcrumb trail above the universe: Universe, then the active topic, then the
    active subtopic, as deep as the navigation has gone. */
module Breadcrumbs {
  import opened Wrappers
  import opened Knowledge

  datatype CrumbKind = UniverseCrumb | TopicCrumb | SubtopicCrumb

  /** A crumb: what it stands for, its text, and whether it is drawn emphasised. */
  datatype Crumb = Crumb(kind: CrumbKind, text: string, emphasised: bool)

  const UniverseLabel: string := "Universe"

  /** The crumbs drawn for a navigation state, left to right. */
  function Crumbs(nav: NavigationState): seq<Crumb> {
    [Crumb(UniverseCrumb, UniverseLabel, nav.level == Root)]
    + (if (nav.level == CategoryLevel || nav.level == Editor) && nav.activeTopic.Some?
       then [Crumb(TopicCrumb, nav.activeTopic.value.name, nav.level == CategoryLevel)] else [])
    + (if nav.level == Editor && nav.activeSubtopic.Some?
       then [Crumb(SubtopicCrumb, nav.activeSubtopic.value.name, true)] else [])
  }

  /** Position of a kind in the trail. */
  function Depth(k: CrumbKind): nat {
    match k
    case UniverseCrumb => 0
    case TopicCrumb => 1
    case SubtopicCrumb => 2
  }

  /** The crumb that stands for a view level. */
  function CurrentKind(level: ViewLevel): CrumbKind {
    match level
    case Root => UniverseCrumb
    case CategoryLevel => TopicCrumb
    case Editor => SubtopicCrumb
  }

  predicate Shows(nav: NavigationState, k: CrumbKind) {
    exists i :: 0 <= i < |Crumbs(nav)| && Crumbs(nav)[i].kind == k
  }

  /** The Universe crumb always comes first; the topic crumb is shown exactly when a
      topic is open at the category or editor level, and the subtopic crumb exactly
      when a subtopic is open in the editor. Crumbs go strictly deeper from left to
      right, and a crumb is emphasised exactly when it stands for the current level,
      so at most one is. */
  lemma CrumbsSpec(nav: NavigationState)
    ensures var cs := Crumbs(nav);
      && cs != [] && cs[0].kind == UniverseCrumb && cs[0].text == UniverseLabel
      && (forall i, j :: 0 <= i < j < |cs| ==> Depth(cs[i].kind) < Depth(cs[j].kind))
      && (forall i :: 0 <= i < |cs| ==> (cs[i].emphasised <==> cs[i].kind == CurrentKind(nav.level)))
      && (forall i, j :: 0 <= i < j < |cs| ==> !(cs[i].emphasised && cs[j].emphasised))
    ensures Shows(nav, UniverseCrumb)
    ensures Shows(nav, TopicCrumb) <==> (nav.level == CategoryLevel || nav.level == Editor) && nav.activeTopic.Some?
    ensures Shows(nav, SubtopicCrumb) <==> nav.level == Editor && nav.activeSubtopic.Some?
  {
    var cs := Crumbs(nav);
    assert cs[0].kind == UniverseCrumb;
    if (nav.level == CategoryLevel || nav.level == Editor) && nav.activeTopic.Some? {
      assert cs[1].kind == TopicCrumb;
    }
    if nav.level == Editor && nav.activeSubtopic.Some? {
      assert cs[|cs| - 1].kind == SubtopicCrumb;
    }
  }
}
