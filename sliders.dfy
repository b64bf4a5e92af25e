/**
 * The carousel as the page script writes it: a `Slider` object whose methods
 * update its fields in place, and the page start-up step that constructs and
 * builds the two carousels. Every method is proved to leave the object in the
 * state the matching `SliderSpec` function gives, and to keep `SliderSpec.Inv`.
 *
 * The DOM is abstracted to the slider's own containers: whether each exists,
 * and the display flag, image and active flag of each slide and dot in them.
 * The timer queue of the browser is kept, per slider, in `liveAutoplay`,
 * `nextHandle` and `pendingCooldowns`.
 */
module Sliders {
  import opened Wrappers
  import ImageNames
  import SiteConfig
  import SliderSpec

  class Slider {
    const folder: string
    const count: int
    const hasContainer: bool
    const hasDotsContainer: bool

    var currentIndex: int
    var isTransitioning: bool
    var timer: Option<nat>
    var touchStartX: real

    var images: seq<string>
    var slides: seq<bool>
    var dots: seq<bool>
    var listening: bool

    var liveAutoplay: set<nat>
    var nextHandle: nat
    var pendingCooldowns: nat

    function Setup(): SliderSpec.Setup {
      SliderSpec.Setup(folder, count, hasContainer, hasDotsContainer)
    }

    function View(): SliderSpec.View
      reads this
    {
      SliderSpec.View(currentIndex, isTransitioning, timer, touchStartX, images, slides, dots,
                      listening, liveAutoplay, nextHandle, pendingCooldowns)
    }

    predicate Valid()
      reads this
    {
      SliderSpec.Inv(Setup(), View())
    }

    constructor (folder: string, count: int, hasContainer: bool, hasDotsContainer: bool)
      ensures Setup() == SliderSpec.Setup(folder, count, hasContainer, hasDotsContainer)
      ensures View() == SliderSpec.Initial()
      ensures Valid()
    {
      this.folder := folder;
      this.count := count;
      this.hasContainer := hasContainer;
      this.hasDotsContainer := hasDotsContainer;
      currentIndex := 1;
      timer := None;
      touchStartX := 0.0;
      isTransitioning := false;
      images, slides, dots, listening := [], [], [], false;
      liveAutoplay, nextHandle, pendingCooldowns := {}, 1, 0;
    }

    /** Lays out the slides and dots, the first one active, and registers the touch listeners. */
    method Build()
      requires Valid()
      modifies this
      ensures Valid()
      ensures View() == SliderSpec.Build(Setup(), old(View()))
    {
      if !hasContainer || !hasDotsContainer || count == 0 {
        return;
      }
      SliderSpec.BuildPreservesInv(Setup(), View());
      images, slides, dots := [], [], [];

      var srcs: seq<string> := [];
      var shown: seq<bool> := [];
      var i := 1;
      while i <= count
        invariant 1 <= i <= SliderSpec.SlideCount(count) + 1
        invariant |srcs| == |shown| == i - 1
        invariant forall j :: 0 <= j < i - 1 ==> srcs[j] == ImageNames.ImagePath(folder, j + 1)
        invariant forall j :: 0 <= j < i - 1 ==> (shown[j] <==> j == 0)
      {
        srcs := srcs + [ImageNames.ImagePath(folder, i)];
        shown := shown + [i == 1];
        i := i + 1;
      }
      images, slides := srcs, shown;

      var active: seq<bool> := [];
      i := 1;
      while i <= count
        invariant 1 <= i <= SliderSpec.SlideCount(count) + 1
        invariant |active| == i - 1
        invariant forall j :: 0 <= j < i - 1 ==> (active[j] <==> j == 0)
      {
        active := active + [i == 1];
        i := i + 1;
      }
      dots := active;

      SetupEventListeners();
      assert images == ImageNames.ImagePaths(folder, SliderSpec.SlideCount(count));
      assert slides == SliderSpec.OnlyAt(SliderSpec.SlideCount(count), 1);
      assert dots == SliderSpec.OnlyAt(SliderSpec.SlideCount(count), 1);
    }

    /** Registers the `touchstart` and `touchend` handlers on the slide container. */
    method SetupEventListeners()
      modifies this
      ensures View() == old(View()).(listening := true)
    {
      listening := true;
    }

    method Navigate(direction: int)
      requires Valid()
      modifies this
      ensures Valid()
      ensures View() == SliderSpec.Navigate(old(View()), direction)
    {
      if !isTransitioning {
        Show(currentIndex + direction);
      }
    }

    method GoToSlide(index: int)
      requires Valid()
      modifies this
      ensures Valid()
      ensures View() == SliderSpec.GoToSlide(old(View()), index)
    {
      if !isTransitioning {
        Show(index);
      }
    }

    /** Moves to slide `n`, wrapping round at either end, and sets the transition lock. */
    method Show(n: int)
      requires Valid()
      modifies this
      ensures Valid()
      ensures View() == SliderSpec.Show(old(View()), n)
    {
      SliderSpec.ShowPreservesInv(Setup(), View(), n);
      var len := |slides|;
      if len == 0 {
        return;
      }

      if n > len {
        currentIndex := 1;
      } else if n < 1 {
        currentIndex := len;
      } else {
        currentIndex := n;
      }

      var hidden := slides;
      var i := 0;
      while i < |hidden|
        invariant |hidden| == len && 0 <= i <= len
        invariant forall j :: 0 <= j < i ==> !hidden[j]
      {
        hidden := hidden[i := false];
        i := i + 1;
      }
      var inactive := dots;
      i := 0;
      while i < |inactive|
        invariant |inactive| == len && 0 <= i <= len
        invariant forall j :: 0 <= j < i ==> !inactive[j]
      {
        inactive := inactive[i := false];
        i := i + 1;
      }

      slides := hidden[currentIndex - 1 := true];
      dots := inactive[currentIndex - 1 := true];
      assert slides == SliderSpec.OnlyAt(len, currentIndex);
      assert dots == SliderSpec.OnlyAt(len, currentIndex);

      isTransitioning := true;
      pendingCooldowns := pendingCooldowns + 1;
    }

    /** Runs one pending cooldown callback: releases the lock and restarts autoplay. */
    method CooldownExpires()
      requires Valid() && pendingCooldowns > 0
      modifies this
      ensures Valid()
      ensures View() == SliderSpec.CooldownExpires(old(View()))
    {
      pendingCooldowns := pendingCooldowns - 1;
      isTransitioning := false;
      StartAutoPlay();
    }

    /** Runs the pending autoplay callback with handle `h`: `show(currentIndex + 1)`. */
    method AutoplayExpires(h: nat)
      requires Valid() && h in liveAutoplay
      modifies this
      ensures Valid()
      ensures View() == SliderSpec.AutoplayFires(old(View()), h)
    {
      liveAutoplay := liveAutoplay - {h};
      Show(currentIndex + 1);
    }

    method StartAutoPlay()
      requires Valid()
      modifies this
      ensures Valid()
      ensures View() == SliderSpec.StartAutoPlay(old(View()))
    {
      StopAutoPlay();
      timer := Some(nextHandle);
      liveAutoplay := liveAutoplay + {nextHandle};
      nextHandle := nextHandle + 1;
    }

    method StopAutoPlay()
      requires Valid()
      modifies this
      ensures Valid()
      ensures View() == SliderSpec.StopAutoPlay(old(View()))
    {
      if timer.Some? {
        liveAutoplay := liveAutoplay - {timer.value};
      }
      timer := None;
    }

    /** The `touchstart` handler. */
    method TouchStart(x: real)
      requires Valid() && listening
      modifies this
      ensures Valid()
      ensures View() == SliderSpec.TouchStart(old(View()), x)
    {
      touchStartX := x;
      StopAutoPlay();
    }

    /** The `touchend` handler. */
    method TouchEnd(x: real)
      requires Valid() && listening
      modifies this
      ensures Valid()
      ensures View() == SliderSpec.TouchEnd(old(View()), x)
    {
      if isTransitioning {
        return;
      }
      var diff := touchStartX - x;
      if SliderSpec.Abs(diff) > SliderSpec.SWIPE_THRESHOLD {
        Navigate(if diff > 0.0 then 1 else -1);
      }
      StartAutoPlay();
    }
  }

  /** Whether the page holds a carousel's slide container and its dots container. */
  datatype Containers = Containers(slides: bool, dots: bool)

  /**
   * The slider step of page start-up: only when the fetched document has a
   * `sliders` object are the two carousels constructed, each from its merged
   * configuration, and built.
   */
  method InitSliders(sliders: Option<map<string, SiteConfig.SliderConfig>>,
                     memoriesPage: Containers, preshootPage: Containers)
    returns (memories: Slider?, preshoot: Slider?)
    ensures sliders.None? ==> memories == null && preshoot == null
    ensures sliders.Some? ==>
      && memories != null && preshoot != null
      && fresh(memories) && fresh(preshoot) && memories != preshoot
      && memories.Valid() && preshoot.Valid()
      && var configs := SiteConfig.SliderConfigs(sliders).value;
      && memories.Setup() == SliderSpec.Setup(configs.0.folder, configs.0.count, memoriesPage.slides, memoriesPage.dots)
      && preshoot.Setup() == SliderSpec.Setup(configs.1.folder, configs.1.count, preshootPage.slides, preshootPage.dots)
      && memories.View() == SliderSpec.Build(memories.Setup(), SliderSpec.Initial())
      && preshoot.View() == SliderSpec.Build(preshoot.Setup(), SliderSpec.Initial())
  {
    memories, preshoot := null, null;
    if sliders.Some? {
      var configs := SiteConfig.SliderConfigs(sliders).value;
      memories := new Slider(configs.0.folder, configs.0.count, memoriesPage.slides, memoriesPage.dots);
      memories.Build();
      preshoot := new Slider(configs.1.folder, configs.1.count, preshootPage.slides, preshootPage.dots);
      preshoot.Build();
    }
  }

  /** Five slides: a left swipe of 100 px moves forward, one of 20 px does not, and both end with autoplay armed. */
  method SwipeScenario() {
    var s := new Slider("images/memories", 5, true, true);
    s.Build();
    assert s.currentIndex == 1 && |s.slides| == 5;
    s.TouchStart(300.0);
    s.TouchEnd(200.0);
    assert s.currentIndex == 2 && s.isTransitioning;
    assert s.timer.Some? && s.liveAutoplay == {s.timer.value};
    s.CooldownExpires();
    s.TouchStart(300.0);
    s.TouchEnd(280.0);
    assert s.currentIndex == 2 && !s.isTransitioning;
    assert s.timer.Some? && s.liveAutoplay == {s.timer.value};
  }

  /** Five slides: backwards from slide 1 lands on slide 5, and forwards from slide 5 on slide 1. */
  method WraparoundScenario() {
    var s := new Slider("images/preshoot", 5, true, true);
    s.Build();
    s.Navigate(-1);
    assert s.currentIndex == 5;
    s.Navigate(1);
    assert s.currentIndex == 5;
    s.CooldownExpires();
    s.Navigate(1);
    assert s.currentIndex == 1;
  }

  /** A disabled slider lays out nothing and registers no listeners. */
  method DisabledScenario() {
    var s := new Slider("images/memories", 0, true, true);
    s.Build();
    assert s.slides == [] && s.dots == [] && !s.listening;
  }
}
