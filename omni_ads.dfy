/** The ad-creative page: a carousel over a fixed list of reference
    templates, a product image, and a generate button whose delayed result is
    six copies of the image. */
module OmniAds {
  import opened Common

  datatype Template = Template(id: int, name: string, description: string)

  /** The carousel's templates; the last two repeat the first two's name
      and description under new ids. */
  const Templates: seq<Template> := [
    Template(1, "Minimaliste", "Épuré & moderne"),
    Template(2, "Dynamique", "Énergique & vif"),
    Template(3, "Premium", "Luxe & élégance"),
    Template(4, "Urgence", "Promotion & CTA"),
    Template(5, "Tendance", "Style viral"),
    Template(6, "Émotion", "Storytelling"),
    Template(7, "Minimaliste", "Épuré & moderne"),
    Template(8, "Dynamique", "Énergique & vif")
  ]

  const GeneratedCount: nat := 6

  /** Template ids are 1 to 8 in order: all distinct, and all truthy. */
  lemma TemplateIds()
    ensures |Templates| == 8
    ensures forall i :: 0 <= i < |Templates| ==> Templates[i].id == i + 1
    ensures forall i, j :: 0 <= i < j < |Templates| ==> Templates[i].id != Templates[j].id
  {
  }

  // ---------------------------------------------------------------------
  // Carousel arithmetic
  // ---------------------------------------------------------------------

  predicate InRange(i: int)
  {
    0 <= i < |Templates|
  }

  /** The index after the right arrow: one more, wrapping to 0 after the last. */
  function NextIndex(i: int): (j: int)
    requires InRange(i)
    ensures InRange(j)
    ensures j == (i + 1) % |Templates|
  {
    if i < |Templates| - 1 then i + 1 else 0
  }

  /** The index after the left arrow: one less, wrapping to the last from 0. */
  function PrevIndex(i: int): (j: int)
    requires InRange(i)
    ensures InRange(j)
    ensures (j + 1) % |Templates| == i
  {
    if i > 0 then i - 1 else |Templates| - 1
  }

  /** The two arrows undo each other. */
  lemma ArrowsInverse(i: int)
    requires InRange(i)
    ensures NextIndex(PrevIndex(i)) == i
    ensures PrevIndex(NextIndex(i)) == i
  {
  }

  /** The index after `k` presses of the right arrow. */
  function NextTimes(i: int, k: nat): (j: int)
    requires InRange(i)
    ensures InRange(j)
  {
    if k == 0 then i else NextIndex(NextTimes(i, k - 1))
  }

  /** `k` presses move `k` places round the ring, so pressing it once per
      template comes back to the start. */
  lemma {:induction false} NextTimesIsModular(i: int, k: nat)
    requires InRange(i)
    ensures NextTimes(i, k) == (i + k) % |Templates|
    ensures k == |Templates| ==> NextTimes(i, k) == i
  {
    assert |Templates| == 8;
    if k > 0 {
      NextTimesIsModular(i, k - 1);
      var prev := NextTimes(i, k - 1);
      assert NextTimes(i, k) == (prev + 1) % 8;
      RingStep(i + k - 1);
    }
  }

  lemma RingStep(x: int)
    ensures (x % 8 + 1) % 8 == (x + 1) % 8
  {
  }

  // ---------------------------------------------------------------------
  // The page
  // ---------------------------------------------------------------------

  class OmniAdsPage {
    var currentIndex: int
    /** The chosen template's id, null before the first sync. */
    var selectedTemplate: Option<int>
    /** The uploaded image as a data URL. */
    var selectedImage: Option<string>
    var isGenerating: bool
    var generatedImages: seq<string>
    /** The images captured by the generation timers still to fire, oldest
        first. */
    var pending: seq<string>

    predicate Valid()
      reads this
    {
      InRange(currentIndex)
    }

    /** `!selectedTemplate` is false exactly for a set, non-zero id. */
    predicate HasTemplate()
      reads this
    {
      selectedTemplate.Some? && selectedTemplate.value != 0
    }

    /** The generate button is enabled. */
    predicate GenerateEnabled()
      reads this
    {
      Truthy(selectedImage) && HasTemplate() && !isGenerating
    }

    constructor ()
      ensures Valid() && currentIndex == 0 && selectedTemplate == None && selectedImage == None
      ensures !isGenerating && generatedImages == [] && pending == []
    {
      currentIndex, selectedTemplate, selectedImage := 0, None, None;
      isGenerating, generatedImages, pending := false, [], [];
    }

    /** The effect that follows every index change: the selected template is
        the one on screen. */
    method SyncEffect()
      requires Valid()
      modifies this
      ensures Valid() && selectedTemplate == Some(Templates[currentIndex].id)
      ensures currentIndex == old(currentIndex) && selectedImage == old(selectedImage)
      ensures isGenerating == old(isGenerating) && generatedImages == old(generatedImages) && pending == old(pending)
    {
      selectedTemplate := Some(Templates[currentIndex].id);
    }

    /** `handleNextTemplate`. */
    method Next()
      requires Valid()
      modifies this
      ensures Valid() && currentIndex == NextIndex(old(currentIndex))
      ensures selectedTemplate == Some(Templates[currentIndex].id)
      ensures selectedImage == old(selectedImage) && isGenerating == old(isGenerating)
      ensures generatedImages == old(generatedImages) && pending == old(pending)
    {
      var i := currentIndex;
      currentIndex := NextIndex(i);
      selectedTemplate := Some(Templates[if i < |Templates| - 1 then i + 1 else 0].id);
    }

    /** `handlePrevTemplate`. */
    method Prev()
      requires Valid()
      modifies this
      ensures Valid() && currentIndex == PrevIndex(old(currentIndex))
      ensures selectedTemplate == Some(Templates[currentIndex].id)
      ensures selectedImage == old(selectedImage) && isGenerating == old(isGenerating)
      ensures generatedImages == old(generatedImages) && pending == old(pending)
    {
      var i := currentIndex;
      currentIndex := PrevIndex(i);
      selectedTemplate := Some(Templates[if i > 0 then i - 1 else |Templates| - 1].id);
    }

    /** Choosing an image file: the reader's result becomes the image. */
    method UploadImage(dataUrl: string)
      modifies this
      ensures selectedImage == Some(dataUrl)
      ensures currentIndex == old(currentIndex) && selectedTemplate == old(selectedTemplate)
      ensures isGenerating == old(isGenerating) && generatedImages == old(generatedImages) && pending == old(pending)
    {
      selectedImage := Some(dataUrl);
    }

    /** The remove button on the image. */
    method RemoveImage()
      modifies this
      ensures selectedImage == None && !GenerateEnabled()
      ensures currentIndex == old(currentIndex) && selectedTemplate == old(selectedTemplate)
      ensures isGenerating == old(isGenerating) && generatedImages == old(generatedImages) && pending == old(pending)
    {
      selectedImage := None;
    }

    /** `handleGenerate`: without an image or a template nothing happens;
        otherwise generation starts and a timer is set holding the image. */
    method Generate()
      modifies this
      ensures !(Truthy(old(selectedImage)) && old(HasTemplate())) ==>
        isGenerating == old(isGenerating) && pending == old(pending)
      ensures Truthy(old(selectedImage)) && old(HasTemplate()) ==>
        isGenerating && pending == old(pending) + [old(selectedImage).value]
      ensures currentIndex == old(currentIndex) && selectedTemplate == old(selectedTemplate)
      ensures selectedImage == old(selectedImage) && generatedImages == old(generatedImages)
    {
      if !Truthy(selectedImage) || !HasTemplate() {
        return;
      }
      isGenerating := true;
      pending := pending + [selectedImage.value];
    }

    /** The oldest generation timer fires: six copies of the image it
        captured replace the results, and generation ends. */
    method TimerFires()
      requires pending != []
      modifies this
      ensures |generatedImages| == GeneratedCount
      ensures forall k :: 0 <= k < |generatedImages| ==> generatedImages[k] == old(pending[0])
      ensures !isGenerating && pending == old(pending[1..])
      ensures currentIndex == old(currentIndex) && selectedTemplate == old(selectedTemplate)
      ensures selectedImage == old(selectedImage)
    {
      var image := pending[0];
      generatedImages := seq(GeneratedCount, _ => image);
      isGenerating := false;
      pending := pending[1..];
    }
  }

  /** A click on an enabled button followed by its timer leaves six copies
      of the image that was selected at the click, whatever happened to the
      image in between. */
  method GenerateThenFire(page: OmniAdsPage, replacement: Option<string>)
    requires page.GenerateEnabled() && page.pending == []
    modifies page
    ensures |page.generatedImages| == GeneratedCount
    ensures forall k :: 0 <= k < GeneratedCount ==> page.generatedImages[k] == old(page.selectedImage.value)
    ensures !page.isGenerating && page.pending == []
  {
    page.Generate();
    if replacement.Some? {
      page.UploadImage(replacement.value);
    } else {
      page.RemoveImage();
    }
    page.TimerFires();
  }
}
