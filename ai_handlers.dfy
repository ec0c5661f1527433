/** The AI controller. Each handler runs its guards in a fixed order, then
    calls an external provider whose outcome is a parameter here, and on
    success inserts at most one row into the creations table. The `call`
    each handler returns is what it sent to a provider; None means no
    provider was contacted. */
module AiHandlers {
  import opened Wrappers
  import opened Js
  import opened Store

  /** What a provider (text model, image model or image CDN) produced. */
  datatype ProviderOutcome = Delivered(output: string) | Threw(message: string)

  /** A file staged by the upload middleware. */
  datatype Upload = Upload(path: string, size: nat, mimetype: string)

  /** A request sent to a provider. */
  datatype ProviderCall =
    | ArticleText(template: Prompt)
    | TitleText(keyword: string, category: string)
    | TextToImage(prompt: string)
    | UploadImage(path: string, effect: Option<string>)
    | ResumeReview(path: string)

  const PremiumOnlyMessage := "This feature is only available for premium subscribers"
  const MaxResumeBytes: nat := 5 * 1024 * 1024

  /** The `publish` value an insert that omits the column receives. */
  const ColumnDefaultPublish := false

  /** The runtime's messages for reading a property of `undefined` or `null`,
      and for calling a method a value does not have. */
  const MissingCategoryError := "Cannot read properties of undefined (reading 'toLowerCase')"
  const NullCategoryError := "Cannot read properties of null (reading 'toLowerCase')"
  const CategoryNotStringError := "category.toLowerCase is not a function"
  const MissingImagePathError := "Cannot read properties of undefined (reading 'path')"

  // ---------------------------------------------------------------------------
  // Pure pieces

  /** The article length bucket as (wordCount, targetWords). An absent length
      fails both comparisons and falls through to "long". */
  function LengthBucket(length: Option<real>): (r: (string, string))
    ensures r == ("500-800 words", "short") || r == ("800-1200 words", "medium") || r == ("1200+ words", "long")
    ensures r.1 == "short" <==> length.Some? && length.value <= 800.0
    ensures r.1 == "medium" <==> length.Some? && 800.0 < length.value <= 1200.0
    ensures r.1 == "long" <==> length.None? || 1200.0 < length.value
  {
    if length.Some? && length.value <= 800.0 then ("500-800 words", "short")
    else if length.Some? && length.value <= 1200.0 then ("800-1200 words", "medium")
    else ("1200+ words", "long")
  }

  /** The three lengths the article page offers fall one in each bucket;
      the bucket bounds are inclusive, and a fractional length just above a
      bound falls in the next bucket. */
  lemma PageLengthOptionsBuckets()
    ensures LengthBucket(Some(800.0)) == ("500-800 words", "short")
    ensures LengthBucket(Some(1200.0)) == ("800-1200 words", "medium")
    ensures LengthBucket(Some(1600.0)) == ("1200+ words", "long")
    ensures LengthBucket(Some(800.5)) == ("800-1200 words", "medium")
  {
  }

  /** The article template: the topic verbatim, with the bucket's word
      count and size word. */
  function ArticlePrompt(topic: string, length: Option<real>): (p: Prompt)
    ensures p.ArticleTemplate? && p.topic == topic
    ensures (p.wordCount, p.targetWords) == LengthBucket(length)
  {
    ArticleTemplate(topic, LengthBucket(length).0, LengthBucket(length).1)
  }

  /** `publish ?? false` over an absent or boolean value: true only for `true`. */
  function PublishOrDefault(publish: Option<bool>): (r: bool)
    ensures r <==> publish == Some(true)
  {
    if publish.Some? then publish.value else false
  }

  /** The prompt recorded for object removal embeds the object name verbatim
      between fixed words. */
  function RemovalPrompt(objectName: Option<string>): (r: string)
    ensures |r| == |Interpolate(objectName)| + 18
    ensures r[..7] == "Remove " && r[|r| - 11..] == " from image"
    ensures r[7..|r| - 11] == Interpolate(objectName)
  {
    "Remove " + Interpolate(objectName) + " from image"
  }

  /** The CDN effect for object removal: the object name after a fixed tag. */
  function RemovalEffect(objectName: Option<string>): (r: string)
    ensures StartsWith(r, "gen_remove:") && r[11..] == Interpolate(objectName)
  {
    "gen_remove:" + Interpolate(objectName)
  }

  /** The object name the CDN is asked to remove, read back from an effect. */
  function RemovedObject(effect: string): Option<string> {
    if StartsWith(effect, "gen_remove:") then Some(effect[11..]) else None
  }

  /** Reading the effect back gives the interpolated object name. */
  lemma RemovalEffectRoundTrip(objectName: Option<string>)
    ensures RemovedObject(RemovalEffect(objectName)) == Some(Interpolate(objectName))
  {
    var e := RemovalEffect(objectName);
    assert StartsWith(e, "gen_remove:") && e[11..] == Interpolate(objectName);
  }

  /** The prompt and the effect name the same object. */
  lemma RemovalPromptMatchesEffect(objectName: Option<string>)
    ensures var p := RemovalPrompt(objectName);
      RemovedObject(RemovalEffect(objectName)) == Some(p[7..|p| - 11])
  {
    RemovalEffectRoundTrip(objectName);
  }

  /** The plan gate shared by the four premium handlers. */
  function PremiumRejection(plan: string): (r: Option<Reply>)
    ensures r.Some? <==> plan != "premium"
    ensures r.Some? ==> r.value == Failure(403, PremiumOnlyMessage)
  {
    if plan != "premium" then Some(Failure(403, PremiumOnlyMessage)) else None
  }

  /** The resume handler's ladder: plan, then file present, then size, then
      type. The first failing check decides the reply. */
  function ResumeRejection(plan: string, resume: Option<Upload>): (r: Option<Reply>)
    ensures plan != "premium" ==> r == Some(Failure(403, PremiumOnlyMessage))
    ensures plan == "premium" && resume.None? ==> r == Some(Failure(400, "No file uploaded"))
    ensures plan == "premium" && resume.Some? && resume.value.size > MaxResumeBytes ==>
      r == Some(Failure(400, "The file size exceeds the allowed limit (5MB)"))
    ensures plan == "premium" && resume.Some? && resume.value.size <= MaxResumeBytes && resume.value.mimetype != "application/pdf" ==>
      r == Some(Failure(400, "Please upload a valid PDF file"))
    ensures r.None? <==> plan == "premium" && resume.Some? && resume.value.size <= MaxResumeBytes && resume.value.mimetype == "application/pdf"
  {
    if plan != "premium" then PremiumRejection(plan)
    else if resume.None? then Some(Failure(400, "No file uploaded"))
    else if resume.value.size > MaxResumeBytes then Some(Failure(400, "The file size exceeds the allowed limit (5MB)"))
    else if resume.value.mimetype != "application/pdf" then Some(Failure(400, "Please upload a valid PDF file"))
    else None
  }

  // ---------------------------------------------------------------------------
  // extractTextFromPDF

  datatype PdfLoad = Loaded(pageCount: nat) | LoadFailed(message: string)
  datatype PdfText = Extracted(text: string) | PdfFailure(message: string)

  function PageLine(page: nat): string {
    "Page " + NatToString(page) + " content\n"
  }

  /** The text for the first `n` pages: one line per page, numbered from 1. */
  function PagesText(n: nat): (r: string)
    ensures n == 0 <==> r == ""
    ensures |r| >= 15 * n
  {
    if n == 0 then "" else PagesText(n - 1) + PageLine(n)
  }

  /** The text of fewer pages is a prefix of the text of more. */
  lemma {:induction false} PagesTextPrefix(m: nat, n: nat)
    requires m <= n
    ensures |PagesText(m)| <= |PagesText(n)| && PagesText(n)[..|PagesText(m)|] == PagesText(m)
    decreases n
  {
    if m < n {
      PagesTextPrefix(m, n - 1);
      assert PagesText(n) == PagesText(n - 1) + PageLine(n);
      assert PagesText(n)[..|PagesText(n - 1)|] == PagesText(n - 1);
    }
  }

  /** The i-th line of the text is the line for page i. */
  lemma PagesTextLineAt(n: nat, i: nat)
    requires 1 <= i <= n
    ensures |PagesText(i)| <= |PagesText(n)|
    ensures PagesText(n)[|PagesText(i - 1)|..|PagesText(i)|] == PageLine(i)
  {
    PagesTextPrefix(i, n);
    var whole, upTo := PagesText(n), PagesText(i);
    assert upTo == PagesText(i - 1) + PageLine(i);
    assert whole[|PagesText(i - 1)|..|upTo|] == upTo[|PagesText(i - 1)|..];
  }

  /** extractTextFromPDF: one "Page i content" line per page, in order. */
  method ExtractTextFromPdf(document: PdfLoad) returns (r: PdfText)
    ensures document.Loaded? ==> r == Extracted(PagesText(document.pageCount))
    ensures document.LoadFailed? ==> r == PdfFailure("Failed to process PDF: " + document.message)
  {
    if document.LoadFailed? {
      return PdfFailure("Failed to process PDF: " + document.message);
    }
    var text := "";
    var i := 0;
    while i < document.pageCount
      invariant 0 <= i <= document.pageCount
      invariant text == PagesText(i)
    {
      text := text + PageLine(i + 1);
      i := i + 1;
    }
    r := Extracted(text);
  }

  // ---------------------------------------------------------------------------
  // Handlers

  /** generateArticle: topic required; no plan check. */
  method GenerateArticle(store: CreationTable, userId: string, prompt: Option<string>, length: Option<real>,
                         provider: ProviderOutcome, now: nat)
    returns (reply: Reply, call: Option<ProviderCall>)
    requires store.Valid()
    modifies store
    ensures store.Valid()
    ensures store.nextId == if reply.success then old(store.nextId) + 1 else old(store.nextId)
    ensures old(store.LikesDistinct()) ==> store.LikesDistinct()
    ensures !Truthy(prompt) ==> reply == Failure(400, "Article topic is required") && call.None?
    ensures Truthy(prompt) ==> call == Some(ArticleText(ArticlePrompt(prompt.value, length)))
    ensures Truthy(prompt) && provider.Threw? ==> reply == Failure(500, "Failed to generate article. Please try again.")
    ensures reply.success <==> Truthy(prompt) && provider.Delivered?
    ensures reply.success ==>
      && reply == Reply(200, true, Some("Article generated successfully!"), Content(provider.output))
      && store.rows == old(store.rows) + [Creation(old(store.nextId), userId, ArticlePrompt(prompt.value, length),
                                                   provider.output, Article, ColumnDefaultPublish, Some([]), now)]
    ensures !reply.success ==> store.rows == old(store.rows)
  {
    if !Truthy(prompt) {
      return Failure(400, "Article topic is required"), None;
    }
    var articlePrompt := ArticlePrompt(prompt.value, length);
    call := Some(ArticleText(articlePrompt));
    if provider.Threw? {
      return Failure(500, "Failed to generate article. Please try again."), call;
    }
    var _ := store.Insert(userId, articlePrompt, provider.output, Article, ColumnDefaultPublish, now);
    reply := Reply(200, true, Some("Article generated successfully!"), Content(provider.output));
  }

  /** What `category.toLowerCase()` throws, if anything: only a string has
      the method, and reading it from `undefined` or `null` fails first. */
  function CategoryError(category: JsValue): (e: Option<string>)
    ensures e.None? <==> category.Text?
    ensures category.Undefined? ==> e == Some(MissingCategoryError)
    ensures category.Null? ==> e == Some(NullCategoryError)
    ensures !category.Text? && !category.Undefined? && !category.Null? ==> e == Some(CategoryNotStringError)
  {
    match category
    case Text(_) => None
    case Undefined => Some(MissingCategoryError)
    case Null => Some(NullCategoryError)
    case _ => Some(CategoryNotStringError)
  }

  /** generateBlogTitle: keyword required; building the prompt calls
      `toLowerCase` on the category, so a category that is not a string
      fails before the provider is called. It never touches the creations
      table. */
  method GenerateBlogTitle(keyword: Option<string>, category: JsValue, provider: ProviderOutcome, development: bool)
    returns (reply: Reply, call: Option<ProviderCall>)
    ensures !Truthy(keyword) ==> reply == Failure(400, "Keyword is required") && call.None?
    ensures Truthy(keyword) && !category.Text? ==>
      call.None? && reply == Failure(500, if development then CategoryError(category).value else "Failed to generate blog title")
    ensures Truthy(keyword) && category.Text? ==> call == Some(TitleText(keyword.value, category.s))
    ensures call.Some? && provider.Threw? ==>
      reply == Failure(500, if development then provider.message else "Failed to generate blog title")
    ensures reply.success <==> call.Some? && provider.Delivered?
    ensures reply.success ==> reply == Reply(200, true, None, Title(Trim(provider.output)))
  {
    if !Truthy(keyword) {
      return Failure(400, "Keyword is required"), None;
    }
    var thrown := CategoryError(category);
    if thrown.Some? {
      return Failure(500, if development then thrown.value else "Failed to generate blog title"), None;
    }
    call := Some(TitleText(keyword.value, category.s));
    if provider.Threw? {
      return Failure(500, if development then provider.message else "Failed to generate blog title"), call;
    }
    reply := Reply(200, true, None, Title(Trim(provider.output)));
  }

  /** generateImage: premium only; `publish` defaults to false. */
  method GenerateImage(store: CreationTable, userId: string, plan: string, prompt: string, publish: Option<bool>,
                       provider: ProviderOutcome, now: nat)
    returns (reply: Reply, call: Option<ProviderCall>)
    requires store.Valid()
    modifies store
    ensures store.Valid()
    ensures store.nextId == if reply.success then old(store.nextId) + 1 else old(store.nextId)
    ensures old(store.LikesDistinct()) ==> store.LikesDistinct()
    ensures plan != "premium" ==> reply == Failure(403, PremiumOnlyMessage) && call.None?
    ensures plan == "premium" ==> call == Some(TextToImage(prompt))
    ensures plan == "premium" && provider.Threw? ==> reply == Failure(500, "Failed to generate image: " + provider.message)
    ensures reply.success <==> plan == "premium" && provider.Delivered?
    ensures reply.success ==>
      && reply == Reply(200, true, Some("Image generated successfully!"), Content(provider.output))
      && store.rows == old(store.rows) + [Creation(old(store.nextId), userId, Literal(prompt), provider.output, Image,
                                                   PublishOrDefault(publish), Some([]), now)]
    ensures !reply.success ==> store.rows == old(store.rows)
  {
    var rejected := PremiumRejection(plan);
    if rejected.Some? {
      return rejected.value, None;
    }
    call := Some(TextToImage(prompt));
    if provider.Threw? {
      return Failure(500, "Failed to generate image: " + provider.message), call;
    }
    var _ := store.Insert(userId, Literal(prompt), provider.output, Image, PublishOrDefault(publish), now);
    reply := Reply(200, true, Some("Image generated successfully!"), Content(provider.output));
  }

  /** removeImageBackGround: plan, then file present; the row records a
      fixed prompt and is never published. */
  method RemoveImageBackground(store: CreationTable, userId: string, plan: string, image: Option<Upload>,
                               provider: ProviderOutcome, now: nat)
    returns (reply: Reply, call: Option<ProviderCall>)
    requires store.Valid()
    modifies store
    ensures store.Valid()
    ensures store.nextId == if reply.success then old(store.nextId) + 1 else old(store.nextId)
    ensures old(store.LikesDistinct()) ==> store.LikesDistinct()
    ensures plan != "premium" ==> reply == Failure(403, PremiumOnlyMessage) && call.None?
    ensures plan == "premium" && image.None? ==> reply == Failure(400, "No image uploaded") && call.None?
    ensures plan == "premium" && image.Some? ==> call == Some(UploadImage(image.value.path, Some("background_removal")))
    ensures call.Some? && provider.Threw? ==> reply == Failure(500, "Failed to remove background: " + provider.message)
    ensures reply.success <==> call.Some? && provider.Delivered?
    ensures reply.success ==>
      && reply == Reply(200, true, Some("Background removed successfully!"), Content(provider.output))
      && store.rows == old(store.rows) + [Creation(old(store.nextId), userId, Literal("Remove background from image"),
                                                   provider.output, Image, false, Some([]), now)]
    ensures !reply.success ==> store.rows == old(store.rows)
  {
    var rejected := PremiumRejection(plan);
    if rejected.Some? {
      return rejected.value, None;
    }
    if image.None? {
      return Failure(400, "No image uploaded"), None;
    }
    call := Some(UploadImage(image.value.path, Some("background_removal")));
    if provider.Threw? {
      return Failure(500, "Failed to remove background: " + provider.message), call;
    }
    var _ := store.Insert(userId, Literal("Remove background from image"), provider.output, Image, false, now);
    reply := Reply(200, true, Some("Background removed successfully!"), Content(provider.output));
  }

  /** removeImageObject: plan only. A missing file is not checked and fails
      when its path is read. The upload yields a public id, from which
      `urlFor` (the CDN's URL builder) derives the delivered URL. */
  method RemoveImageObject(store: CreationTable, userId: string, plan: string, image: Option<Upload>,
                           objectName: Option<string>, upload: ProviderOutcome, urlFor: (string, string) -> string, now: nat)
    returns (reply: Reply, call: Option<ProviderCall>)
    requires store.Valid()
    modifies store
    ensures store.Valid()
    ensures store.nextId == if reply.success then old(store.nextId) + 1 else old(store.nextId)
    ensures old(store.LikesDistinct()) ==> store.LikesDistinct()
    ensures plan != "premium" ==> reply == Failure(403, PremiumOnlyMessage) && call.None?
    ensures plan == "premium" && image.None? ==>
      reply == Failure(500, "Failed to remove object: " + MissingImagePathError) && call.None?
    ensures plan == "premium" && image.Some? ==> call == Some(UploadImage(image.value.path, None))
    ensures call.Some? && upload.Threw? ==> reply == Failure(500, "Failed to remove object: " + upload.message)
    ensures reply.success <==> call.Some? && upload.Delivered?
    ensures reply.success ==>
      var url := urlFor(upload.output, RemovalEffect(objectName));
      && reply == Reply(200, true, Some("Successfully removed object from image!"), Content(url))
      && store.rows == old(store.rows) + [Creation(old(store.nextId), userId, Literal(RemovalPrompt(objectName)),
                                                   url, Image, ColumnDefaultPublish, Some([]), now)]
    ensures !reply.success ==> store.rows == old(store.rows)
  {
    var rejected := PremiumRejection(plan);
    if rejected.Some? {
      return rejected.value, None;
    }
    if image.None? {
      return Failure(500, "Failed to remove object: " + MissingImagePathError), None;
    }
    call := Some(UploadImage(image.value.path, None));
    if upload.Threw? {
      return Failure(500, "Failed to remove object: " + upload.message), call;
    }
    var url := urlFor(upload.output, RemovalEffect(objectName));
    var _ := store.Insert(userId, Literal(RemovalPrompt(objectName)), url, Image, ColumnDefaultPublish, now);
    reply := Reply(200, true, Some("Successfully removed object from image!"), Content(url));
  }

  /** ReviewResume: plan, file, size, type, then the review. */
  method ReviewResume(store: CreationTable, userId: string, plan: string, resume: Option<Upload>,
                      provider: ProviderOutcome, now: nat)
    returns (reply: Reply, call: Option<ProviderCall>)
    requires store.Valid()
    modifies store
    ensures store.Valid()
    ensures store.nextId == if reply.success then old(store.nextId) + 1 else old(store.nextId)
    ensures old(store.LikesDistinct()) ==> store.LikesDistinct()
    ensures ResumeRejection(plan, resume).Some? ==> reply == ResumeRejection(plan, resume).value && call.None?
    ensures ResumeRejection(plan, resume).None? ==> call == Some(ResumeReview(resume.value.path))
    ensures call.Some? && provider.Threw? ==> reply == Failure(500, "Failed to review resume: " + provider.message)
    ensures reply.success <==> call.Some? && provider.Delivered?
    ensures reply.success ==>
      && reply == Reply(200, true, Some("Resume reviewed successfully!"), Content(provider.output))
      && store.rows == old(store.rows) + [Creation(old(store.nextId), userId, ResumeTemplate, provider.output, Resume,
                                                   ColumnDefaultPublish, Some([]), now)]
    ensures !reply.success ==> store.rows == old(store.rows)
  {
    var rejected := ResumeRejection(plan, resume);
    if rejected.Some? {
      return rejected.value, None;
    }
    call := Some(ResumeReview(resume.value.path));
    if provider.Threw? {
      return Failure(500, "Failed to review resume: " + provider.message), call;
    }
    var _ := store.Insert(userId, ResumeTemplate, provider.output, Resume, ColumnDefaultPublish, now);
    reply := Reply(200, true, Some("Resume reviewed successfully!"), Content(provider.output));
  }
}
