/**
 * The prediction endpoint of the server: the class labels and their
 * recommendation table, the sample-image lookup over a folder listing,
 * the extraction of the base64 payload from a data URL, and the reply.
 *
 * The file system enters as a map from folder path to listing (a folder
 * exists when it is a key); decoding, preprocessing and the classifier
 * enter as one function from the payload text to an Inference.
 */
module Server {
  import opened PyStrings
  import opened Protocol

  /** The classifier's labels, in output order. */
  const ClassNames: seq<string> := ["Heart", "Oblong", "Oval", "Round", "Square"]

  /** The recommendation texts for one shape. */
  datatype Advice = Advice(female: string, male: string)

  /** Recommendations keyed by lower-case label. */
  const Recommendations: map<string, Advice> := map[
    "round" := Advice("Crinkled lob, old hollywood wave, etc", "Curly hair sut, taper cut, etc"),
    "oval" := Advice("Wispy long bob, wavy medium length, etc", "The crop, flow back, etc"),
    "square" := Advice("Curtain bangs, curly and short, etc", "Fullshave, buzzcut, etc"),
    "heart" := Advice("Long layered, semi-side swept bang, etc", "Temple fade with high top, middle part, etc"),
    "oblong" := Advice("Curly shag, center-parted ponytail, etc", "Tapered mullet, low comb fade over, etc")
  ]

  /** The file extensions of a sample image. */
  const ImageExtensions: seq<string> := [".jpg", ".jpeg", ".png", ".webp"]

  /** At most this many sample images are returned per gender. */
  const MaxSampleImages: nat := 5

  predicate HasImageExtension(name: string)
  {
    exists k :: 0 <= k < |ImageExtensions| && EndsWith(name, ImageExtensions[k])
  }

  /** A listed file is a sample for the (lower-case) shape. */
  predicate IsSampleFor(file: string, shape: string)
  {
    StartsWith(Lower(file), shape) && HasImageExtension(Lower(file))
  }

  function SampleFolder(gender: string): string
  {
    "static/hairstyles/" + gender
  }

  function SamplePath(gender: string, file: string): string
  {
    "/static/hairstyles/" + gender + "/" + file
  }

  /** Path p is the sample path of some listed file that is a sample for the shape. */
  predicate FromListing(p: string, gender: string, shape: string, files: seq<string>)
  {
    exists j :: 0 <= j < |files| && IsSampleFor(files[j], shape) && p == SamplePath(gender, files[j])
  }

  /** The paths of all sample files of a listing, in listing order. */
  function MatchingPaths(gender: string, shape: string, files: seq<string>): (r: seq<string>)
    ensures |r| <= |files|
  {
    if files == [] then []
    else
      var last := files[|files| - 1];
      MatchingPaths(gender, shape, files[..|files| - 1])
        + (if IsSampleFor(last, shape) then [SamplePath(gender, last)] else [])
  }

  /** `s[:n]`. */
  function Take<T>(s: seq<T>, n: nat): (r: seq<T>)
    ensures |r| <= n && |r| <= |s|
    ensures r == s[..|r|]
    ensures |s| <= n ==> r == s
    ensures |s| > n ==> |r| == n
  {
    if |s| <= n then s else s[..n]
  }

  /** What the sample-image lookup returns for a gender and a shape. */
  function SampleImages(gender: string, facialShape: string, folders: map<string, seq<string>>): seq<string>
  {
    var folder := SampleFolder(gender);
    if folder in folders then Take(MatchingPaths(gender, Lower(facialShape), folders[folder]), MaxSampleImages)
    else []
  }

  /** Every matching path comes from a listed sample file. */
  lemma {:induction false} MatchingPathsSound(gender: string, shape: string, files: seq<string>)
    ensures forall k :: 0 <= k < |MatchingPaths(gender, shape, files)| ==>
      FromListing(MatchingPaths(gender, shape, files)[k], gender, shape, files)
  {
    if files != [] {
      var init := files[..|files| - 1];
      MatchingPathsSound(gender, shape, init);
      var r := MatchingPaths(gender, shape, files);
      var head := MatchingPaths(gender, shape, init);
      forall k | 0 <= k < |r|
        ensures FromListing(r[k], gender, shape, files)
      {
        if k < |head| {
          assert r[k] == head[k];
          assert FromListing(head[k], gender, shape, init);
          var j :| 0 <= j < |init| && IsSampleFor(init[j], shape) && head[k] == SamplePath(gender, init[j]);
          assert files[j] == init[j];
        } else {
          assert r[k] == SamplePath(gender, files[|files| - 1]);
        }
      }
    }
  }

  /** Every listed sample file has its path among the matching paths. */
  lemma {:induction false} MatchingPathsComplete(gender: string, shape: string, files: seq<string>, j: int)
    requires 0 <= j < |files| && IsSampleFor(files[j], shape)
    ensures SamplePath(gender, files[j]) in MatchingPaths(gender, shape, files)
  {
    var init := files[..|files| - 1];
    if j < |files| - 1 {
      assert files[j] == init[j];
      MatchingPathsComplete(gender, shape, init, j);
    }
  }

  /** Filtering keeps listing order: the paths of a concatenation are concatenated. */
  lemma {:induction false} MatchingPathsAppend(gender: string, shape: string, a: seq<string>, b: seq<string>)
    ensures MatchingPaths(gender, shape, a + b) == MatchingPaths(gender, shape, a) + MatchingPaths(gender, shape, b)
  {
    if b == [] {
      assert a + b == a;
    } else {
      var binit := b[..|b| - 1];
      assert (a + b)[..|a + b| - 1] == a + binit;
      assert (a + b)[|a + b| - 1] == b[|b| - 1];
      MatchingPathsAppend(gender, shape, a, binit);
    }
  }

  /**
   * `get_sample_images`: the first five sample files of the gender's
   * folder whose lower-cased name starts with the lower-cased shape and
   * ends with an image extension, as paths; nothing when the folder is
   * missing.
   */
  method GetSampleImages(gender: string, facialShape: string, folders: map<string, seq<string>>)
    returns (images: seq<string>)
    ensures images == SampleImages(gender, facialShape, folders)
    ensures |images| <= MaxSampleImages
    ensures SampleFolder(gender) !in folders ==> images == []
    ensures SampleFolder(gender) in folders ==>
      var files := folders[SampleFolder(gender)];
      forall k :: 0 <= k < |images| ==> FromListing(images[k], gender, Lower(facialShape), files)
  {
    var folder := SampleFolder(gender);
    var shape := Lower(facialShape);
    images := [];
    if folder in folders {
      var files := folders[folder];
      for i := 0 to |files|
        invariant images == MatchingPaths(gender, shape, files[..i])
      {
        var file := files[i];
        assert files[..i + 1][..i] == files[..i];
        if StartsWith(Lower(file), shape) && HasImageExtension(Lower(file)) {
          images := images + [SamplePath(gender, file)];
        }
      }
      assert files[..|files|] == files;
      MatchingPathsSound(gender, shape, files);
    }
    images := Take(images, MaxSampleImages);
  }

  /** `data['image'].split(',')[-1]`: the base64 text after the data-URL header. */
  function Payload(image: string): (p: string)
    ensures ',' !in p
    ensures |p| <= |image| && image[|image| - |p|..] == p
    ensures ',' !in image ==> p == image
    ensures ',' in image ==> |p| < |image| && image[|image| - |p| - 1] == ','
  {
    LastFieldIsTail(image, ',');
    LastField(image, ',')
  }

  /** What decoding, preprocessing and the classifier yield, or the exception they raise. */
  datatype Inference = Predicted(index: nat, confidence: string) | Raised(message: string)

  /** Every label lowers to a key of the recommendation table. */
  lemma LabelsHaveRecommendations()
    ensures forall i :: 0 <= i < |ClassNames| ==> Lower(ClassNames[i]) in Recommendations
  {
    forall i | 0 <= i < |ClassNames|
      ensures Lower(ClassNames[i]) in Recommendations
    {
      if i == 0 {
        LowerIs("Heart", "heart");
      } else if i == 1 {
        LowerIs("Oblong", "oblong");
      } else if i == 2 {
        LowerIs("Oval", "oval");
      } else if i == 3 {
        LowerIs("Round", "round");
      } else {
        LowerIs("Square", "square");
      }
    }
  }

  /**
   * The `/predict` route. A body without an image is refused with 400;
   * an exception in the decoding and classification steps, or a predicted
   * index past the label list, becomes a 500 reply carrying its message;
   * otherwise the reply names the label and carries its recommendations
   * and sample images.
   */
  method Predict(data: map<string, string>, classify: string -> Inference, folders: map<string, seq<string>>)
    returns (reply: Reply)
    ensures "image" !in data ==> reply == Reply(400, ErrorReply("No image data"))
    ensures "image" in data && classify(Payload(data["image"])).Raised? ==>
      reply == Reply(500, ErrorReply(classify(Payload(data["image"])).message))
    ensures "image" in data && classify(Payload(data["image"])).Predicted? ==>
      var inference := classify(Payload(data["image"]));
      if inference.index < |ClassNames| then
        var name := ClassNames[inference.index];
        && Lower(name) in Recommendations
        && reply == Reply(200, ShapeReply(name, inference.confidence,
                                          Recommendations[Lower(name)].female,
                                          Recommendations[Lower(name)].male,
                                          SampleImages("female", name, folders),
                                          SampleImages("male", name, folders)))
      else
        reply == Reply(500, ErrorReply("list index out of range"))
    ensures reply.status == 200 ==> reply.body.ShapeReply? && reply.body.facialShape in ClassNames
  {
    if "image" !in data {
      return Reply(400, ErrorReply("No image data"));
    }
    var imageData := Payload(data["image"]);
    var inference := classify(imageData);
    if inference.Raised? {
      return Reply(500, ErrorReply(inference.message));
    }
    var index := inference.index;
    if index >= |ClassNames| {
      // IndexError raised by class_names[index].
      return Reply(500, ErrorReply("list index out of range"));
    }
    var name := ClassNames[index];
    var key := Lower(name);
    // recommendations[key] cannot raise KeyError: every label lowers to a key.
    LabelsHaveRecommendations();
    var female := Recommendations[key].female;
    var male := Recommendations[key].male;
    var femaleImages := GetSampleImages("female", name, folders);
    var maleImages := GetSampleImages("male", name, folders);
    reply := Reply(200, ShapeReply(name, inference.confidence, female, male, femaleImages, maleImages));
  }
}
