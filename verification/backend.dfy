/** The back end's answer logic: `/ask` tries OpenAI and falls back to the offline mock
    whenever that call raises; `/ask-mock` lower-cases the question, picks the first
    keyword category with a keyword inside it, and answers with an opener, a body for that
    category and a closer, each chosen at random.

    The random choices are the fields of `Picks`; the HTTP exchange with OpenAI is the
    value `Transport`; what `create_base_prompt` might raise is a parameter. */
module MockBackend {
  import opened Common

  // ---------------------------------------------------------------------------------
  // Strings

  predicate IsUpper(c: char)
  {
    'A' <= c <= 'Z'
  }

  /** One character of `str.lower()`: an ASCII capital moves 32 code points down to its
      small letter; every other character is kept. */
  function LowerChar(c: char): (d: char)
    ensures !IsUpper(d)
    ensures !IsUpper(c) ==> d == c
    ensures IsUpper(c) ==> d as int == c as int + 32 && 'a' <= d <= 'z'
  {
    if IsUpper(c) then (c as int + 32) as char else c
  }

  /** `str.lower()` on ASCII letters. */
  function Lower(s: string): (r: string)
    ensures |r| == |s|
    ensures forall i :: 0 <= i < |s| ==> r[i] == LowerChar(s[i])
  {
    seq(|s|, i requires 0 <= i < |s| => LowerChar(s[i]))
  }

  /** `p` occurs in `s` starting at index `i`. */
  predicate At(s: string, p: string, i: nat)
  {
    i + |p| <= |s| && s[i..i + |p|] == p
  }

  /** Python's `p in s` on strings: a substring test, not a word test. */
  predicate Contains(s: string, p: string)
  {
    exists i: nat :: i <= |s| && At(s, p, i)
  }

  /** `sep.join(xs)`. */
  function Join(xs: seq<string>, sep: string): string
  {
    if xs == [] then "" else if |xs| == 1 then xs[0] else xs[0] + sep + Join(xs[1..], sep)
  }

  // ---------------------------------------------------------------------------------
  // The profile

  const Name := "Danendra Shafi Athallah"
  const Location := "Jakarta, Indonesia"
  const Education := "Institut Teknologi Bandung, Teknik Informatika"
  const Job := "Frontend Developer di TechCorp Indonesia"
  const Experience := "3 tahun pengalaman di pengembangan web dan 2 tahun di data science"
  const Skills: seq<string> :=
    ["Next.js", "React", "Python", "AI", "Data Science", "TensorFlow", "Tailwind CSS"]
  const PythonDetail := "Bahasa pemrograman utama untuk analisis data dan backend"
  const Hobbies: seq<string> := ["Membaca buku sci-fi", "Traveling ke destinasi lokal",
                                 "Fotografi urban", "Hiking di akhir pekan"]
  /** The keys of the hobby details, in insertion order, and their values. */
  const HobbyKeys: seq<string> := ["Membaca", "Traveling", "Fotografi", "Hiking"]
  const HobbyDetails: seq<string> := [
    "Buku favorit termasuk 'Dune' dan karya-karya Ted Chiang",
    "Sudah mengunjungi 8 provinsi di Indonesia dan berencana menambah lagi",
    "Memiliki akun Instagram khusus untuk hasil foto urban landscape",
    "Mendaki Gunung Rinjani pada 2022 dan Gunung Semeru pada 2023"]
  const Projects: seq<string> := [
    "AI Sentiment Analyzer - Aplikasi analisis sentimen menggunakan NLP",
    "E-Commerce Dashboard - Dashboard untuk monitoring penjualan online",
    "Personal Finance Tracker - Aplikasi tracking keuangan pribadi",
    "Smart Home Controller - Sistem kontrol perangkat rumah berbasis IoT dan AI"]
  /** The keys of the project details, in insertion order, and their values. */
  const ProjectKeys: seq<string> :=
    ["AI Sentiment Analyzer", "E-Commerce Dashboard", "Personal Finance Tracker", "Smart Home Controller"]
  const ProjectDetails: seq<string> := [
    "Proyek ini menggunakan model BERT untuk menganalisis sentimen dari ulasan pengguna dengan akurasi 92%. Diimplementasikan dengan Python, TensorFlow, dan Flask. Digunakan oleh sebuah marketplace lokal untuk memonitor feedback pelanggan secara real-time.",
    "Dashboard yang menampilkan metrik penjualan, tren produk, dan perilaku pengguna. Dibuat dengan Next.js, Chart.js, dan terintegrasi dengan API berbagai platform e-commerce. Meningkatkan efisiensi pengambilan keputusan bisnis sebesar 35%.",
    "Aplikasi web yang membantu pengguna melacak pengeluaran, mengatur anggaran, dan memvisualisasikan kebiasaan finansial. Menggunakan React, Firebase, dan D3.js untuk visualisasi data yang interaktif.",
    "Sistem yang mengintegrasikan berbagai perangkat IoT di rumah dengan kontrol berbasis AI. Menggunakan Raspberry Pi, Python, dan TensorFlow Lite untuk prediksi kebiasaan pengguna dan optimalisasi penggunaan energi."]
  const Character := "Kreatif, analitis, detail-oriented, dan suka belajar hal baru"
  const Achievements: seq<string> := ["Juara 2 Hackathon Nasional 2022", "Speaker di TechConf Jakarta 2023",
                                      "Kontributor open source di beberapa proyek React"]
  const Quotes: seq<string> := ["Code is like humor. When you have to explain it, it's bad.",
                                "The best way to predict the future is to create it.",
                                "Simplicity is the ultimate sophistication."]
  const Plan := "Fokus memperdalam keahlian di bidang AI dan machine learning, sambil mengembangkan produk digital yang memiliki dampak sosial positif."

  // ---------------------------------------------------------------------------------
  // Classification

  datatype Category =
    | SkillTopic | ProjectTopic | HobbyTopic | AiTopic | EducationTopic | AchievementTopic
    | CharacterTopic | PlanTopic | DefaultTopic

  /** The eight `if`/`elif` branches in order, each with its keyword list. */
  const Branches: seq<(Category, seq<string>)> := [
    (SkillTopic, ["keahlian", "skill", "bisa", "kemampuan", "ahli"]),
    (ProjectTopic, ["proyek", "project", "karya", "portfolio", "aplikasi"]),
    (HobbyTopic, ["hobi", "suka", "waktu luang", "kegiatan", "aktivitas"]),
    (AiTopic, ["ai", "artificial intelligence", "machine learning", "ml", "kecerdasan"]),
    (EducationTopic, ["pendidikan", "sekolah", "kuliah", "belajar", "kampus"]),
    (AchievementTopic, ["prestasi", "pencapaian", "award", "penghargaan"]),
    (CharacterTopic, ["karakter", "kepribadian", "sifat", "tipe", "mbti"]),
    (PlanTopic, ["rencana", "masa depan", "target", "tujuan", "cita"])
  ]

  /** `any(word in question for word in words)`. */
  predicate AnyIn(words: seq<string>, question: string)
  {
    exists w :: w in words && Contains(question, w)
  }

  /** A branch list whose categories are pairwise distinct and never the default one. */
  predicate WellTagged(branches: seq<(Category, seq<string>)>)
  {
    && (forall k, j :: 0 <= k < j < |branches| ==> branches[k].0 != branches[j].0)
    && (forall k :: 0 <= k < |branches| ==> branches[k].0 != DefaultTopic)
  }

  /** The branch taken from branch `k` on: the first one whose keywords occur. */
  function FirstFrom(branches: seq<(Category, seq<string>)>, question: string, k: nat): (c: Category)
    requires k <= |branches| && WellTagged(branches)
    decreases |branches| - k
    ensures c == DefaultTopic <==> forall j :: k <= j < |branches| ==> !AnyIn(branches[j].1, question)
    ensures c != DefaultTopic ==>
              exists j :: k <= j < |branches| && branches[j].0 == c && AnyIn(branches[j].1, question)
                          && forall m :: k <= m < j ==> !AnyIn(branches[m].1, question)
  {
    if k == |branches| then DefaultTopic
    else if AnyIn(branches[k].1, question) then branches[k].0
    else FirstFrom(branches, question, k + 1)
  }

  lemma BranchesWellTagged()
    ensures WellTagged(Branches)
  {
  }

  /** The category of a question: lower-case it, then take the first branch with a
      keyword in it, or the default branch. */
  function Classify(question: string): (c: Category)
    ensures c == DefaultTopic <==> forall j :: 0 <= j < |Branches| ==> !AnyIn(Branches[j].1, Lower(question))
    ensures c != DefaultTopic ==>
              exists j :: 0 <= j < |Branches| && Branches[j].0 == c && AnyIn(Branches[j].1, Lower(question))
  {
    BranchesWellTagged();
    FirstFrom(Branches, Lower(question), 0)
  }

  // ---------------------------------------------------------------------------------
  // Assembly

  const Openers: seq<string> := [
    "Hai! Sebagai asisten " + Name + ", ",
    "Senang kamu bertanya! ",
    "Oke, jadi tentang itu... ",
    "Hmm, pertanyaan bagus! ",
    "Izinkan saya memberitahu kamu, ",
    "Menarik sekali pertanyaannya! "
  ]

  const Closers: seq<string> := [
    " Semoga info ini membantu!",
    " Ada hal lain yang ingin kamu ketahui?",
    " Silakan tanya lebih detail jika kamu mau!",
    " Jangan ragu untuk bertanya lebih lanjut ya!",
    "",
    " Bagaimana menurutmu?"
  ]

  /** The random choices of one mock answer: an opener, one of three bodies, a closer,
      and for some categories an item (a project, a hobby, an achievement, a quote or a
      skill) and a second item (a skill or a hobby). */
  datatype Picks = Picks(opener: nat, template: nat, item: nat, other: nat, closer: nat)

  /** How many items the category chooses from; 0 when it chooses none. */
  function ItemCount(c: Category): nat
  {
    match c
    case SkillTopic => |Skills|
    case ProjectTopic => |ProjectKeys|
    case HobbyTopic => |HobbyKeys|
    case AchievementTopic => |Achievements|
    case DefaultTopic => |Quotes|
    case _ => 0
  }

  function OtherCount(c: Category): nat
  {
    match c
    case SkillTopic => |Skills|
    case HobbyTopic => |Hobbies|
    case _ => 0
  }

  /** What `random.choice` can return. */
  predicate ValidPicks(c: Category, p: Picks)
  {
    && p.opener < |Openers| && p.template < 3 && p.closer < |Closers|
    && (ItemCount(c) > 0 ==> p.item < ItemCount(c))
    && (OtherCount(c) > 0 ==> p.other < OtherCount(c))
  }

  /** A template with its one `{user_profile['nama']}` slot filled: the text `before`
      the slot, the owner's name, the text `after` it. */
  function WithName(before: string, after: string): (r: string)
    ensures At(r, Name, |before|) && Contains(r, Name)
    ensures before <= r && r[|before| + |Name|..] == after
  {
    var r := before + Name + after;
    assert r[|before|..|before| + |Name|] == Name;
    assert At(r, Name, |before|);
    r
  }

  /** The template for a category, from its three, as the text before and after its
      name slot. */
  function Template(c: Category, p: Picks): (string, string)
    requires ValidPicks(c, p)
  {
    var t := p.template;
    match c
    case SkillTopic =>
      if t == 0 then
        ("", " sangat ahli dalam bidang " + Join(Skills[..3], ", ") + ". Khususnya di Next.js, dia sudah menggunakannya untuk hampir semua proyek webnya dalam 2 tahun terakhir.")
      else if t == 1 then
        ("Keahlian utama ", " adalah di bidang " + Skills[p.item] + " dan " + Skills[p.other] + ". Dia juga cukup menguasai " + PythonDetail + ".")
      else
        ("", " punya keahlian yang kuat di " + Skills[0] + " dengan pengalaman " + Experience + ". Dia juga memperdalam skill di bidang " + Skills[3] + " dan " + Skills[4] + " belakangan ini.")
    case ProjectTopic =>
      var project, detail := ProjectKeys[p.item], ProjectDetails[p.item];
      if t == 0 then
        ("Salah satu proyek kebanggaan ", " adalah " + project + ". " + detail)
      else if t == 1 then
        ("", " telah mengerjakan beberapa proyek menarik, tapi yang paling dibanggakan adalah " + project + ". " + detail)
      else
        ("Proyek " + project + " mungkin yang paling mencerminkan kemampuan ", ". " + detail)
    case HobbyTopic =>
      var hobby, detail := HobbyKeys[p.item], HobbyDetails[p.item];
      if t == 0 then
        ("", " memiliki beberapa hobi menarik, terutama " + hobby + ". " + detail)
      else if t == 1 then
        ("Di waktu luangnya, ", " suka " + Lower(hobby) + ". " + detail)
      else
        ("Ketika tidak sedang coding, ", " menghabiskan waktu untuk " + Lower(hobby) + " dan " + Lower(Hobbies[p.other]) + ".")
    case AiTopic =>
      if t == 0 then
        ("", " punya ketertarikan besar pada AI. Dia telah mengerjakan proyek " + Projects[0] + " yang menggunakan NLP dan model machine learning untuk analisis sentimen.")
      else if t == 1 then
        ("Pengalaman ", " dengan AI cukup dalam, terutama di area NLP. Proyek AI Sentiment Analyzer adalah contoh bagaimana dia mengimplementasikan teknologi ini secara praktis.")
      else
        ("AI adalah salah satu fokus utama ", " saat ini. Dia menggabungkan keahlian frontend-nya dengan AI untuk membuat aplikasi yang lebih pintar dan intuitif. Bahkan, rencana masa depannya adalah " + Plan)
    case EducationTopic =>
      if t == 0 then
        ("", " adalah lulusan " + Education + ". Pendidikan formalnya memberi dasar kuat untuk karir di bidang teknologi.")
      else if t == 1 then
        ("Untuk pendidikannya, ", " menempuh studi di " + Education + ". Di sana dia mulai mengembangkan minat di bidang programming dan data science.")
      else
        ("", " belajar di " + Education + ", tapi banyak keahliannya juga didapat dari pembelajaran mandiri dan proyek-proyek yang dikerjakannya.")
    case AchievementTopic =>
      var achievement := Achievements[p.item];
      if t == 0 then
        ("", " cukup berbangga dengan prestasinya sebagai " + achievement + ". Ini adalah pengakuan atas keahlian dan dedikasinya di bidang teknologi.")
      else if t == 1 then
        ("Salah satu pencapaian yang patut dibanggakan adalah " + achievement + ". Ini menunjukkan kemampuan ", " dalam menerapkan keahlian teknisnya secara praktis.")
      else
        ("Prestasi yang mungkin patut disebutkan adalah " + achievement + ". ", " selalu berusaha untuk berkontribusi dan berbagi pengetahuannya dengan komunitas.")
    case CharacterTopic =>
      if t == 0 then
        ("", " dikenal sebagai orang yang " + Character + ". Dia sangat detail dalam pekerjaannya dan selalu ingin memahami hal-hal baru.")
      else if t == 1 then
        ("Kepribadian ", " bisa digambarkan sebagai " + Character + ". Dia senang menghadapi tantangan dan selalu mencari cara untuk meningkatkan keterampilannya.")
      else
        ("Sebagai seseorang yang " + Character + ", ", " selalu mengejar kesempurnaan dalam setiap proyeknya. Dia pun suka berbagi pengetahuan dan membantu orang lain.")
    case PlanTopic =>
      if t == 0 then
        ("Untuk masa depan, ", " berencana untuk " + Plan + ". Dia selalu melihat teknologi sebagai alat untuk membuat perubahan positif.")
      else if t == 1 then
        ("", " memiliki visi untuk " + Plan + ". Ini sejalan dengan minatnya pada teknologi dan keinginannya untuk terus berkembang.")
      else
        ("Rencana ", " ke depan adalah " + Plan + ". Dia percaya bahwa AI dan machine learning akan memainkan peran penting dalam menyelesaikan masalah-masalah kompleks.")
    case DefaultTopic =>
      var quote := Quotes[p.item];
      if t == 0 then
        ("", " adalah seorang " + Job + " yang berbasis di " + Location + ". Dia memiliki keahlian di bidang " + Join(Skills[..3], ", ") + " dan sangat tertarik dengan perkembangan teknologi terbaru.")
      else if t == 1 then
        ("Sebagai seorang yang " + Character + ", ", " terus mengembangkan dirinya di bidang teknologi. Salah satu quotes favoritnya adalah '" + quote + "'.")
      else
        ("", " menggabungkan keahlian teknis dengan kreativitas dalam setiap proyeknya. Dengan pengalaman " + Experience + ", dia terus mencari cara untuk membuat teknologi lebih berdampak positif.")
  }

  /** The body for a category: its template with the owner's name filled in, so every one
      of the 27 bodies names the owner. */
  function Body(c: Category, p: Picks): (r: string)
    requires ValidPicks(c, p)
    ensures Contains(r, Name)
  {
    var (before, after) := Template(c, p);
    WithName(before, after)
  }

  /** `ask_ai_mock`: opener, body and closer for the question's category. */
  function MockAnswer(question: string, p: Picks): (answer: string)
    requires ValidPicks(Classify(question), p)
    ensures Openers[p.opener] <= answer
    ensures |Openers[p.opener]| + |Closers[p.closer]| <= |answer|
    ensures answer[|answer| - |Closers[p.closer]|..] == Closers[p.closer]
    ensures answer[|Openers[p.opener]|..|answer| - |Closers[p.closer]|] == Body(Classify(question), p)
  {
    Openers[p.opener] + Body(Classify(question), p) + Closers[p.closer]
  }

  // ---------------------------------------------------------------------------------
  // OpenAI and the /ask fallback

  /** A JSON value where the code expects a string. */
  datatype JsonText = JString(s: string) | JNonString

  /** `choices[i]`, with the string at `["message"]["content"]` if the keys are there. */
  datatype Choice = Choice(content: Option<JsonText>)

  /** The decoded reply: its `choices` list, if the key is present. */
  datatype Completion = Completion(choices: Option<seq<Choice>>)

  /** The exchange with the chat-completions endpoint. */
  datatype Transport =
    | Replied(status: nat, json: Option<Completion>)   // None: the body is not JSON
    | RequestFailed                                     // a `RequestException`

  /** Why `call_openai_api` raised. */
  datatype Failure = MissingKey | RequestError | BadStatus(status: nat) | NotJson | NoChoices | NoContent

  datatype Called = Returned(value: JsonText) | Raised(failure: Failure)

  /** `call_openai_api`: a key is needed before any request; a transport failure, a
      status other than 200, a body that is not JSON, an absent or empty `choices` list
      and a first choice without content all raise; otherwise the first choice's content is
      returned as it is. */
  function CallOpenAi(apiKey: Option<string>, t: Transport): (r: Called)
    ensures (apiKey == None || apiKey == Some("")) ==> r == Raised(MissingKey)
    ensures r.Returned? <==>
              && apiKey != None && apiKey != Some("")
              && t.Replied? && t.status == 200 && t.json.Some?
              && t.json.value.choices.Some? && |t.json.value.choices.value| > 0
              && t.json.value.choices.value[0].content.Some?
    ensures r.Returned? ==> r.value == t.json.value.choices.value[0].content.value
  {
    if apiKey == None || apiKey == Some("") then Raised(MissingKey)
    else match t
      case RequestFailed => Raised(RequestError)
      case Replied(status, json) =>
        if status != 200 then Raised(BadStatus(status))
        else if json.None? then Raised(NotJson)
        else if json.value.choices.None? || |json.value.choices.value| == 0 then Raised(NoChoices)
        else if json.value.choices.value[0].content.None? then Raised(NoContent)
        else Returned(json.value.choices.value[0].content.value)
  }

  /** What the endpoint sends back. */
  datatype Reply = Answer(response: string) | ServerError(status: nat, detail: string)

  const ErrorPrefix := "Terjadi kesalahan: "

  /** The `except` of both handlers: HTTP 500 carrying the exception's text. */
  function Escalated(message: string): (r: Reply)
    ensures r.ServerError? && r.status == 500
    ensures ErrorPrefix <= r.detail && r.detail[|ErrorPrefix|..] == message
  {
    ServerError(500, ErrorPrefix + message)
  }

  /** `ask_ai`. The prompt is built first (`promptFailure` is what it raises, if
      anything); then a string content from OpenAI is the answer, and anything else (the
      call raising, or a non-string content failing the response model) falls back to the
      mock. */
  function AskAi(question: string, apiKey: Option<string>, t: Transport, p: Picks,
                 promptFailure: Option<string>): (r: Reply)
    requires ValidPicks(Classify(question), p)
    ensures promptFailure.Some? ==> r.ServerError? && r.status == 500
                                    && r.detail == ErrorPrefix + promptFailure.value
    ensures promptFailure.None? ==> r.Answer?
    ensures promptFailure.None? && CallOpenAi(apiKey, t).Returned? && CallOpenAi(apiKey, t).value.JString? ==>
              r.response == CallOpenAi(apiKey, t).value.s
    ensures promptFailure.None? && !(CallOpenAi(apiKey, t).Returned? && CallOpenAi(apiKey, t).value.JString?) ==>
              r.response == MockAnswer(question, p)
  {
    if promptFailure.Some? then Escalated(promptFailure.value)
    else
      var called := CallOpenAi(apiKey, t);
      if called.Returned? && called.value.JString? then Answer(called.value.s)
      else Answer(MockAnswer(question, p))
  }

  // ---------------------------------------------------------------------------------
  // Properties

  /** The category is the first branch, in source order, with a keyword in the lower-cased
      question; the default branch exactly when no branch has one. */
  lemma ClassifyIsFirstMatch(question: string, j: nat)
    requires j < |Branches|
    ensures Classify(question) == Branches[j].0 <==>
              AnyIn(Branches[j].1, Lower(question))
              && forall m :: 0 <= m < j ==> !AnyIn(Branches[m].1, Lower(question))
    ensures Classify(question) == DefaultTopic <==>
              forall m :: 0 <= m < |Branches| ==> !AnyIn(Branches[m].1, Lower(question))
  {
    BranchesWellTagged();
    var q := Lower(question);
    if Classify(question) == Branches[j].0 {
      ChosenMatchesFirst(Branches, q, j);
    } else if AnyIn(Branches[j].1, q) {
      FirstMatchIsChosen(Branches, q, j);
    }
  }

  /** The branch taken has a keyword in the question and no earlier branch has one. */
  lemma ChosenMatchesFirst(branches: seq<(Category, seq<string>)>, q: string, j: nat)
    requires WellTagged(branches) && j < |branches| && FirstFrom(branches, q, 0) == branches[j].0
    ensures AnyIn(branches[j].1, q) && forall m :: 0 <= m < j ==> !AnyIn(branches[m].1, q)
  {
    var k :| 0 <= k < |branches| && branches[k].0 == branches[j].0 && AnyIn(branches[k].1, q)
              && forall m :: 0 <= m < k ==> !AnyIn(branches[m].1, q);
    assert k == j;
  }

  /** A branch with a keyword in the question, none before it, is the branch taken. */
  lemma FirstMatchIsChosen(branches: seq<(Category, seq<string>)>, q: string, j: nat)
    requires WellTagged(branches) && j < |branches| && AnyIn(branches[j].1, q)
    ensures FirstFrom(branches, q, 0) == branches[j].0 || exists m :: 0 <= m < j && AnyIn(branches[m].1, q)
  {
    var c := FirstFrom(branches, q, 0);
    var k :| 0 <= k < |branches| && branches[k].0 == c && AnyIn(branches[k].1, q)
              && forall m :: 0 <= m < k ==> !AnyIn(branches[m].1, q);
    if k < j {
      assert AnyIn(branches[k].1, q);
    }
  }

  lemma {:induction false} LowerIdempotent(s: string)
    ensures Lower(Lower(s)) == Lower(s)
  {
    forall i | 0 <= i < |s| ensures Lower(Lower(s))[i] == Lower(s)[i] {
      assert !IsUpper(Lower(s)[i]);
    }
  }

  /** The mock ignores letter case: a question and its lower-cased form get the same
      category, and so the same answer for the same choices. */
  lemma MockIgnoresCase(question: string, p: Picks)
    requires ValidPicks(Classify(question), p)
    ensures Classify(Lower(question)) == Classify(question)
    ensures MockAnswer(Lower(question), p) == MockAnswer(question, p)
  {
    LowerIdempotent(question);
  }

  /** `x` and `y` are the same character up to ASCII letter case. */
  predicate SameLetter(x: char, y: char)
  {
    x == y || (IsUpper(x) && y as int == x as int + 32) || (IsUpper(y) && x as int == y as int + 32)
  }

  /** Questions that differ only in the case of ASCII letters ("SKILL?" and "Skill?") are
      lower-cased to the same text, so they get the same category and the same answer. */
  lemma SameUpToCase(a: string, b: string, p: Picks)
    requires |a| == |b| && forall i :: 0 <= i < |a| ==> SameLetter(a[i], b[i])
    requires ValidPicks(Classify(a), p)
    ensures Lower(a) == Lower(b)
    ensures Classify(a) == Classify(b)
    ensures MockAnswer(a, p) == MockAnswer(b, p)
  {
    forall i | 0 <= i < |a| ensures Lower(a)[i] == Lower(b)[i] {
      if IsUpper(a[i]) && b[i] as int == a[i] as int + 32 {
        assert !IsUpper(b[i]);
      } else if IsUpper(b[i]) && a[i] as int == b[i] as int + 32 {
        assert !IsUpper(a[i]);
      }
    }
  }

  /** `/ask` gives OpenAI's content exactly when the call succeeds with a string, and the
      mock answer for the same question otherwise; it fails only when building the prompt
      does. */
  lemma AskFallsBack(question: string, apiKey: Option<string>, t: Transport, p: Picks)
    requires ValidPicks(Classify(question), p)
    ensures var r := AskAi(question, apiKey, t, p, None);
            && r.Answer?
            && (CallOpenAi(apiKey, t) == Returned(JString(r.response))
                || (r.response == MockAnswer(question, p)
                    && !(CallOpenAi(apiKey, t).Returned? && CallOpenAi(apiKey, t).value.JString?)))
  {
  }

  /** Without an API key no request is made and the answer is the mock's. */
  lemma NoKeyMeansMock(question: string, t: Transport, p: Picks)
    requires ValidPicks(Classify(question), p)
    ensures AskAi(question, None, t, p, None) == Answer(MockAnswer(question, p))
    ensures AskAi(question, Some(""), t, p, None) == Answer(MockAnswer(question, p))
  {
  }

  /** A keyword occurs in any text holding a word that contains it. */
  lemma ContainsInside(s: string, word: string, p: string, d: nat)
    requires Contains(s, word)
    requires d + |p| <= |word| && word[d..d + |p|] == p
    ensures Contains(s, p)
  {
    var i: nat :| i <= |s| && At(s, word, i);
    forall k | 0 <= k < |p| ensures s[i + d + k] == p[k] {
      assert s[i..i + |word|][d + k] == word[d + k];
    }
    assert At(s, p, i + d);
  }

  /** Keywords match inside longer words: "bagaimana" holds "ai", so a question with it
      and no skill, project or hobby keyword is answered as an AI question, even when it
      asks about education ("Bagaimana pendidikan kamu?"). */
  lemma HowLandsInAI(question: string)
    requires Contains(Lower(question), "bagaimana")
    requires forall m :: 0 <= m < 3 ==> !AnyIn(Branches[m].1, Lower(question))
    ensures Classify(question) == AiTopic
  {
    var q := Lower(question);
    assert "bagaimana"[3..5] == "ai";
    ContainsInside(q, "bagaimana", "ai", 3);
    assert "ai" in Branches[3].1;
    assert AnyIn(Branches[3].1, q);
    ClassifyIsFirstMatch(question, 3);
  }
}
