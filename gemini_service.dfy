/**
 * The recipe service of src/services/geminiService.js: a readiness flag (the
 * SDK client, set or absent), the two prompts it sends, the extraction of a
 * fenced JSON block from the reply, and the fixed error messages it throws.
 * The SDK call `generateContent` is a parameter standing for the network; so
 * is the JSON decoder, since JSON.parse is library code.
 */
module GeminiService {
  import opened Wrappers
  import opened Text
  import opened JsValues
  import Seqs
  import Storage

  const GEMINI_MODEL := "gemini-2.5-flash"

  const NOT_READY_FOR_GENERATE := "Gemini APIが初期化されていません。設定でAPIキーを入力してください。"
  const NOT_READY_FOR_REFINE := "Gemini APIが初期化されていません。"
  const GENERATE_FAILED := "レシピの生成に失敗しました: "
  const REFINE_FAILED := "レシピの修正に失敗しました: "
  const PARSE_FAILED := "レシピの解析に失敗しました。もう一度お試しください。"

  // ---------------------------------------------------------------------
  // Data

  /** The option values of the constraint selects; the first of each (the last for spiciness) is neutral. */
  datatype CookingTime = AnyTime | Within10 | Within20 | Within30
  datatype Difficulty = AnyDifficulty | Easy | Normal | Hard
  datatype MealType = AnyMeal | Breakfast | Lunch | Dinner | Snack
  datatype Spiciness = Mild | MediumHeat | Spicy | VerySpicy

  datatype Constraints = Constraints(cookingTime: CookingTime, difficulty: Difficulty, mealType: MealType, spiciness: Spiciness)

  const DEFAULT_CONSTRAINTS := Constraints(AnyTime, AnyDifficulty, AnyMeal, MediumHeat)

  datatype Nutrition = Nutrition(calories: string, protein: string, notes: string)

  /** One recipe as the model returns it; every text field is free text. */
  datatype Recipe = Recipe(
    title: string,
    description: string,
    cookingTime: string,
    difficulty: string,
    servings: string,
    seasonings: seq<string>,
    ingredients: seq<string>,
    steps: seq<string>,
    nutrition: Option<Nutrition>,
    tips: Option<string>)

  /** What is sent to `client.models.generateContent`. */
  datatype Request = Request(model: string, contents: string)

  /** What comes back: the response's `text` (undefined when the response has none), or a thrown error's message. */
  datatype Reply = Answered(text: Option<string>) | Threw(message: string)

  // ---------------------------------------------------------------------
  // The generation prompt

  const RECIPE_INTRO := "あなたは経験豊富な料理人です。" + "以下の食材と条件から、3〜5種類のユニークで美味しいレシピを提案してください。"
  const INGREDIENTS_HEADER := "### 利用可能な食材:"
  const CONDITIONS_HEADER := "### 条件:"

  const TIME_LABEL := "- 調理時間: "
  const DIFFICULTY_LABEL := "- 難易度: "
  const MEAL_TYPE_LABEL := "- 食事タイプ: "
  const SPICINESS_LABEL := "- 辛さ: "

  function TimeText(t: CookingTime): string
    requires t != AnyTime
  {
    match t
    case Within10 => "10分以内"
    case Within20 => "20分以内"
    case Within30 => "30分以内"
  }

  function DifficultyText(d: Difficulty): string
    requires d != AnyDifficulty
  {
    match d
    case Easy => "簡単"
    case Normal => "普通"
    case Hard => "上級"
  }

  function MealTypeText(m: MealType): string
    requires m != AnyMeal
  {
    match m
    case Breakfast => "朝食"
    case Lunch => "昼食"
    case Dinner => "夕食"
    case Snack => "おやつ"
  }

  function SpicinessText(s: Spiciness): string {
    match s
    case Mild => "辛くない"
    case MediumHeat => "普通"
    case Spicy => "辛い"
    case VerySpicy => "とても辛い"
  }

  /** The conditions section's line for each field: present only when the field differs from its neutral value. */
  function TimePart(c: Constraints): seq<string> {
    if c.cookingTime != AnyTime then [TIME_LABEL + TimeText(c.cookingTime)] else []
  }

  function DifficultyPart(c: Constraints): seq<string> {
    if c.difficulty != AnyDifficulty then [DIFFICULTY_LABEL + DifficultyText(c.difficulty)] else []
  }

  function MealTypePart(c: Constraints): seq<string> {
    if c.mealType != AnyMeal then [MEAL_TYPE_LABEL + MealTypeText(c.mealType)] else []
  }

  function SpicinessPart(c: Constraints): seq<string> {
    if c.spiciness != MediumHeat then [SPICINESS_LABEL + SpicinessText(c.spiciness)] else []
  }

  /** The lines of the conditions section: one per field that differs from its neutral value, in field order. */
  function ConditionLines(c: Constraints): (r: seq<string>)
    ensures |r| <= 4
    ensures r == [] <==> c == DEFAULT_CONSTRAINTS
  {
    TimePart(c) + DifficultyPart(c) + MealTypePart(c) + SpicinessPart(c)
  }

  /** One `- x` line per item, in order. */
  function Bullets(xs: seq<string>): (r: seq<string>)
    ensures |r| == |xs| && forall i :: 0 <= i < |xs| ==> r[i] == "- " + xs[i]
  {
    seq(|xs|, i requires 0 <= i < |xs| => "- " + xs[i])
  }

  /** The generation prompt up to the conditions, line by line. */
  function RecipePromptLines(ingredients: seq<string>, c: Constraints): seq<string> {
    [RECIPE_INTRO, "", INGREDIENTS_HEADER] + Bullets(ingredients) + ["", CONDITIONS_HEADER] + ConditionLines(c)
  }

  /** The fixed output-format instructions that close the generation prompt. */
  const RECIPE_FORMAT :=
    "\n### 出力フォーマット:\n" +
    "各レシピについて、以下のJSON形式で出力してください（複数のレシピを配列として）:\n\n" +
    "```json\n" +
    "[\n" +
    "  {\n" +
    "    \"title\": \"レシピのタイトル\",\n" +
    "    \"description\": \"レシピの簡単な説明（1-2文）\",\n" +
    "    \"cookingTime\": \"調理時間（例: 15分）\",\n" +
    "    \"difficulty\": \"難易度（簡単/普通/上級）\",\n" +
    "    \"servings\": \"人数（例: 2人分）\",\n" +
    "    \"seasonings\": [\"必要な調味料のリスト\"],\n" +
    "    \"ingredients\": [\"使用する食材のリスト（分量付き）\"],\n" +
    "    \"steps\": [\"詳細な手順のリスト\"],\n" +
    "    \"nutrition\": {\n" +
    "      \"calories\": \"カロリー（例: 約350kcal）\",\n" +
    "      \"protein\": \"タンパク質（例: 約20g）\",\n" +
    "      \"notes\": \"栄養に関する補足\"\n" +
    "    },\n" +
    "    \"tips\": \"調理のコツや保存方法などの補足情報\"\n" +
    "  }\n" +
    "]\n" +
    "```\n\n" +
    "JSONコードブロック以外の説明は不要です。JSON配列のみを返してください。"

  /** `buildRecipePrompt(ingredients, constraints)`. */
  function RecipePrompt(ingredients: seq<string>, c: Constraints): string {
    JoinLines(RecipePromptLines(ingredients, c)) + RECIPE_FORMAT
  }

  /** The generation prompt opens with the introduction line and closes with the fixed format text. */
  lemma RecipePromptBounds(ingredients: seq<string>, c: Constraints)
    ensures StartsWith(RecipePrompt(ingredients, c), RECIPE_INTRO + "\n")
    ensures EndsWith(RecipePrompt(ingredients, c), RECIPE_FORMAT)
  {
    var lines := RecipePromptLines(ingredients, c);
    assert lines[0] == RECIPE_INTRO;
    JoinedBounds(lines, RECIPE_FORMAT);
  }

  /** Whether a line starts with a given field label. */
  function WithTag(tag: string): string -> bool {
    line => StartsWith(line, tag)
  }

  /** A line that starts with one label does not start with another whose third character differs. */
  lemma LabelExcludes(a: string, text: string, b: string)
    requires |a| > 2 && |b| > 2 && a[2] != b[2]
    ensures !StartsWith(a + text, b)
  {
    if |b| <= |a + text| {
      assert (a + text)[..|b|][2] == a[2];
    }
  }

  /** Of an optional line labelled `own`, the lines labelled `tag` are the line itself when the labels agree, and none otherwise. */
  lemma FilterPart(part: seq<string>, tag: string, own: string, text: string)
    requires |tag| > 2 && |own| > 2 && (tag == own || tag[2] != own[2])
    requires part == [] || part == [own + text]
    ensures Seqs.Filter(part, WithTag(tag)) == if tag == own then part else []
  {
    if part != [] {
      assert [own + text][1..] == [];
      if tag == own {
        assert (own + text)[..|own|] == own;
      } else {
        LabelExcludes(own, text, tag);
      }
    }
  }

  lemma FilterFour(a: seq<string>, b: seq<string>, c: seq<string>, d: seq<string>, keep: string -> bool)
    ensures Seqs.Filter(a + b + c + d, keep)
         == Seqs.Filter(a, keep) + Seqs.Filter(b, keep) + Seqs.Filter(c, keep) + Seqs.Filter(d, keep)
  {
    Seqs.FilterAppend(a + b + c, d, keep);
    Seqs.FilterAppend(a + b, c, keep);
    Seqs.FilterAppend(a, b, keep);
  }

  /** A part between empty parts is the whole. */
  lemma OnlyPart(x: seq<string>)
    ensures x + [] + [] + [] == x && [] + x + [] + [] == x && [] + [] + x + [] == x && [] + [] + [] + x == x
  {
    assert x + [] == x;
    assert [] + x == x;
  }

  /** Four optional lines, one per field label: the lines carrying one label are that label's part alone. */
  lemma FilterParts(t: seq<string>, d: seq<string>, m: seq<string>, s: seq<string>, tag: string,
                    tt: string, dt: string, mt: string, st: string)
    requires t == [] || t == [TIME_LABEL + tt]
    requires d == [] || d == [DIFFICULTY_LABEL + dt]
    requires m == [] || m == [MEAL_TYPE_LABEL + mt]
    requires s == [] || s == [SPICINESS_LABEL + st]
    requires tag == TIME_LABEL || tag == DIFFICULTY_LABEL || tag == MEAL_TYPE_LABEL || tag == SPICINESS_LABEL
    ensures tag == TIME_LABEL ==> Seqs.Filter(t + d + m + s, WithTag(tag)) == t
    ensures tag == DIFFICULTY_LABEL ==> Seqs.Filter(t + d + m + s, WithTag(tag)) == d
    ensures tag == MEAL_TYPE_LABEL ==> Seqs.Filter(t + d + m + s, WithTag(tag)) == m
    ensures tag == SPICINESS_LABEL ==> Seqs.Filter(t + d + m + s, WithTag(tag)) == s
  {
    assert TIME_LABEL[2] == '調' && DIFFICULTY_LABEL[2] == '難' && MEAL_TYPE_LABEL[2] == '食' && SPICINESS_LABEL[2] == '辛';
    FilterFour(t, d, m, s, WithTag(tag));
    FilterPart(t, tag, TIME_LABEL, tt);
    FilterPart(d, tag, DIFFICULTY_LABEL, dt);
    FilterPart(m, tag, MEAL_TYPE_LABEL, mt);
    FilterPart(s, tag, SPICINESS_LABEL, st);
    OnlyPart(t);
    OnlyPart(d);
    OnlyPart(m);
    OnlyPart(s);
  }

  /** Each constraint contributes exactly one line, and only when it is not neutral: the lines that carry a
      field's label are that field's rendered text, or nothing for the neutral value. */
  lemma ConditionLineFor(c: Constraints)
    ensures Seqs.Filter(ConditionLines(c), WithTag(TIME_LABEL))
         == if c.cookingTime != AnyTime then [TIME_LABEL + TimeText(c.cookingTime)] else []
    ensures Seqs.Filter(ConditionLines(c), WithTag(DIFFICULTY_LABEL))
         == if c.difficulty != AnyDifficulty then [DIFFICULTY_LABEL + DifficultyText(c.difficulty)] else []
    ensures Seqs.Filter(ConditionLines(c), WithTag(MEAL_TYPE_LABEL))
         == if c.mealType != AnyMeal then [MEAL_TYPE_LABEL + MealTypeText(c.mealType)] else []
    ensures Seqs.Filter(ConditionLines(c), WithTag(SPICINESS_LABEL))
         == if c.spiciness != MediumHeat then [SPICINESS_LABEL + SpicinessText(c.spiciness)] else []
  {
    var t, d, m, s := TimePart(c), DifficultyPart(c), MealTypePart(c), SpicinessPart(c);
    var tt := if c.cookingTime != AnyTime then TimeText(c.cookingTime) else "";
    var dt := if c.difficulty != AnyDifficulty then DifficultyText(c.difficulty) else "";
    var mt := if c.mealType != AnyMeal then MealTypeText(c.mealType) else "";
    var st := SpicinessText(c.spiciness);
    FilterParts(t, d, m, s, TIME_LABEL, tt, dt, mt, st);
    FilterParts(t, d, m, s, DIFFICULTY_LABEL, tt, dt, mt, st);
    FilterParts(t, d, m, s, MEAL_TYPE_LABEL, tt, dt, mt, st);
    FilterParts(t, d, m, s, SPICINESS_LABEL, tt, dt, mt, st);
  }

  lemma BulletsAreLines(xs: seq<string>)
    requires WholeLines(xs)
    ensures WholeLines(Bullets(xs))
  {
    forall i | 0 <= i < |xs| ensures NoNewline(Bullets(xs)[i]) {
      assert Bullets(xs)[i] == "- " + xs[i];
    }
  }

  /** An optional labelled line is a whole line when its label and text are. */
  lemma OptionalLine(part: seq<string>, tag: string, text: string)
    requires part == [] || part == [tag + text]
    requires NoNewline(tag) && NoNewline(text)
    ensures WholeLines(part)
  {
  }

  lemma ConditionLinesAreLines(c: Constraints)
    ensures WholeLines(ConditionLines(c))
  {
    var t, d, m, s := TimePart(c), DifficultyPart(c), MealTypePart(c), SpicinessPart(c);
    OptionalLine(t, TIME_LABEL, if c.cookingTime != AnyTime then TimeText(c.cookingTime) else "");
    OptionalLine(d, DIFFICULTY_LABEL, if c.difficulty != AnyDifficulty then DifficultyText(c.difficulty) else "");
    OptionalLine(m, MEAL_TYPE_LABEL, if c.mealType != AnyMeal then MealTypeText(c.mealType) else "");
    OptionalLine(s, SPICINESS_LABEL, SpicinessText(c.spiciness));
    WholeLinesAppend(t, d);
    WholeLinesAppend(t + d, m);
    WholeLinesAppend(t + d + m, s);
  }

  lemma RecipeIntroIsLine()
    ensures NoNewline(RECIPE_INTRO)
  {
  }

  /** The fixed header lines of the generation prompt hold no line feed. */
  lemma RecipeHeadersAreLines()
    ensures WholeLines([RECIPE_INTRO, "", INGREDIENTS_HEADER]) && WholeLines(["", CONDITIONS_HEADER])
  {
    RecipeIntroIsLine();
  }

  /** With single-line ingredients, every line of the generation prompt before the format text is a whole line. */
  lemma RecipePromptLinesAreLines(ingredients: seq<string>, c: Constraints)
    requires WholeLines(ingredients)
    ensures WholeLines(RecipePromptLines(ingredients, c))
  {
    var intro: seq<string> := [RECIPE_INTRO, "", INGREDIENTS_HEADER];
    var mid: seq<string> := ["", CONDITIONS_HEADER];
    RecipeHeadersAreLines();
    BulletsAreLines(ingredients);
    ConditionLinesAreLines(c);
    WholeLinesAppend(intro, Bullets(ingredients));
    WholeLinesAppend(intro + Bullets(ingredients), mid);
    WholeLinesAppend(intro + Bullets(ingredients) + mid, ConditionLines(c));
  }

  /** Read line by line, the generation prompt is the intro, the ingredients header, one `- x` line per
      ingredient in order, the conditions header and the condition lines, then the fixed format text. */
  lemma RecipePromptReadsBack(ingredients: seq<string>, c: Constraints)
    requires WholeLines(ingredients)
    ensures SplitLines(RecipePrompt(ingredients, c))
         == [RECIPE_INTRO, "", INGREDIENTS_HEADER] + Bullets(ingredients) + ["", CONDITIONS_HEADER]
            + ConditionLines(c) + SplitLines(RECIPE_FORMAT)
  {
    RecipePromptLinesAreLines(ingredients, c);
    SplitJoinLines(RecipePromptLines(ingredients, c), RECIPE_FORMAT);
  }

  /** Two ingredients with only the spiciness changed to "spicy": the prompt lists both and has one condition. */
  lemma SpicyScenario()
    ensures var c := DEFAULT_CONSTRAINTS.(spiciness := Spicy);
      && ConditionLines(c) == [SPICINESS_LABEL + "辛い"]
      && RecipePromptLines(["豚肉", "玉ねぎ"], c)
         == [RECIPE_INTRO, "", INGREDIENTS_HEADER, "- " + "豚肉", "- " + "玉ねぎ", "", CONDITIONS_HEADER, SPICINESS_LABEL + "辛い"]
  {
    var c := DEFAULT_CONSTRAINTS.(spiciness := Spicy);
    assert ConditionLines(c) == [] + [] + [] + [SPICINESS_LABEL + "辛い"];
  }

  // ---------------------------------------------------------------------
  // The refinement prompt

  const ORIGINAL_HEADER := "### 元のレシピ:"
  const SEASONINGS_HEADER := "**調味料**:"
  const RECIPE_INGREDIENTS_HEADER := "**食材**:"
  const STEPS_HEADER := "**手順**:"

  /** The request line, with the instruction quoted in 「」. */
  function InstructionLine(instruction: string): string {
    "以下のレシピを「" + instruction + "」という指示に従って修正してください。"
  }

  /** `n. step` lines numbered from 1, in order. */
  function NumberedSteps(steps: seq<string>): (r: seq<string>)
    ensures |r| == |steps| && forall i :: 0 <= i < |steps| ==> r[i] == Decimal(i + 1) + ". " + steps[i]
  {
    seq(|steps|, i requires 0 <= i < |steps| => Decimal(i + 1) + ". " + steps[i])
  }

  /** The refinement prompt up to the steps, line by line. */
  function RefinePromptLines(recipe: Recipe, instruction: string): seq<string> {
    [InstructionLine(instruction), "", ORIGINAL_HEADER,
     "**タイトル**: " + recipe.title,
     "**説明**: " + recipe.description,
     "**調理時間**: " + recipe.cookingTime,
     "**難易度**: " + recipe.difficulty,
     "", SEASONINGS_HEADER]
    + Bullets(recipe.seasonings)
    + ["", RECIPE_INGREDIENTS_HEADER] + Bullets(recipe.ingredients)
    + ["", STEPS_HEADER] + NumberedSteps(recipe.steps)
  }

  /** The fixed output-format instructions that close the refinement prompt. */
  const REFINE_FORMAT :=
    "\n### 出力フォーマット:\n" +
    "修正後のレシピを以下のJSON形式で出力してください:\n\n" +
    "```json\n" +
    "{\n" +
    "  \"title\": \"レシピのタイトル\",\n" +
    "  \"description\": \"レシピの簡単な説明\",\n" +
    "  \"cookingTime\": \"調理時間\",\n" +
    "  \"difficulty\": \"難易度\",\n" +
    "  \"servings\": \"人数\",\n" +
    "  \"seasonings\": [\"必要な調味料のリスト\"],\n" +
    "  \"ingredients\": [\"使用する食材のリスト（分量付き）\"],\n" +
    "  \"steps\": [\"詳細な手順のリスト\"],\n" +
    "  \"nutrition\": {\n" +
    "    \"calories\": \"カロリー\",\n" +
    "    \"protein\": \"タンパク質\",\n" +
    "    \"notes\": \"栄養に関する補足\"\n" +
    "  },\n" +
    "  \"tips\": \"調理のコツや保存方法などの補足情報\"\n" +
    "}\n" +
    "```\n\n" +
    "JSONコードブロック以外の説明は不要です。JSONオブジェクトのみを返してください。"

  /** `buildRefinePrompt(recipe, instruction)`. */
  function RefinePrompt(recipe: Recipe, instruction: string): string {
    JoinLines(RefinePromptLines(recipe, instruction)) + REFINE_FORMAT
  }

  /** The refinement prompt opens with the quoted instruction line and closes with the fixed format text. */
  lemma RefinePromptBounds(recipe: Recipe, instruction: string)
    ensures StartsWith(RefinePrompt(recipe, instruction), InstructionLine(instruction) + "\n")
    ensures EndsWith(RefinePrompt(recipe, instruction), REFINE_FORMAT)
  {
    var lines := RefinePromptLines(recipe, instruction);
    assert lines[0] == InstructionLine(instruction);
    JoinedBounds(lines, REFINE_FORMAT);
  }

  /** The prompt shows the recipe's title, description, time, difficulty, seasonings, ingredients and
      steps; servings, nutrition and tips do not enter it. */
  lemma RefinePromptIgnoresOtherFields(recipe: Recipe, instruction: string, servings: string, nutrition: Option<Nutrition>, tips: Option<string>)
    ensures RefinePrompt(recipe.(servings := servings, nutrition := nutrition, tips := tips), instruction)
         == RefinePrompt(recipe, instruction)
  {
  }

  /** The i-th step line starts with the number i + 1, which reads back as i + 1. */
  lemma StepNumbering(steps: seq<string>, i: nat)
    requires i < |steps|
    ensures StartsWith(NumberedSteps(steps)[i], Decimal(i + 1) + ". ")
    ensures DecimalValue(Decimal(i + 1)) == i + 1
  {
    DecimalRoundTrip(i + 1);
  }

  predicate RecipeWithoutNewlines(recipe: Recipe) {
    && NoNewline(recipe.title) && NoNewline(recipe.description)
    && NoNewline(recipe.cookingTime) && NoNewline(recipe.difficulty)
    && WholeLines(recipe.seasonings) && WholeLines(recipe.ingredients) && WholeLines(recipe.steps)
  }

  lemma NumberedStepsAreLines(steps: seq<string>)
    requires WholeLines(steps)
    ensures WholeLines(NumberedSteps(steps))
  {
    var r := NumberedSteps(steps);
    forall i | 0 <= i < |steps| ensures NoNewline(r[i]) {
      DecimalHasNoNewline(i + 1);
      assert r[i] == Decimal(i + 1) + ". " + steps[i];
    }
  }

  /** The lines before the seasonings hold no line feed when the instruction and the shown fields do not. */
  lemma RefineHeadIsLines(recipe: Recipe, instruction: string)
    requires NoNewline(instruction) && RecipeWithoutNewlines(recipe)
    ensures WholeLines([InstructionLine(instruction), "", ORIGINAL_HEADER,
                        "**タイトル**: " + recipe.title,
                        "**説明**: " + recipe.description,
                        "**調理時間**: " + recipe.cookingTime,
                        "**難易度**: " + recipe.difficulty,
                        "", SEASONINGS_HEADER])
  {
  }

  /** With single-line fields, every line of the refinement prompt before the format text is a whole line. */
  lemma RefinePromptLinesAreLines(recipe: Recipe, instruction: string)
    requires NoNewline(instruction) && RecipeWithoutNewlines(recipe)
    ensures WholeLines(RefinePromptLines(recipe, instruction))
  {
    var head: seq<string> := [InstructionLine(instruction), "", ORIGINAL_HEADER,
             "**タイトル**: " + recipe.title,
             "**説明**: " + recipe.description,
             "**調理時間**: " + recipe.cookingTime,
             "**難易度**: " + recipe.difficulty,
             "", SEASONINGS_HEADER];
    RefineHeadIsLines(recipe, instruction);
    var g: seq<string> := ["", RECIPE_INGREDIENTS_HEADER];
    var t: seq<string> := ["", STEPS_HEADER];
    assert WholeLines(g) && WholeLines(t);
    BulletsAreLines(recipe.seasonings);
    BulletsAreLines(recipe.ingredients);
    NumberedStepsAreLines(recipe.steps);
    var p1 := head + Bullets(recipe.seasonings);
    WholeLinesAppend(head, Bullets(recipe.seasonings));
    WholeLinesAppend(p1, g);
    WholeLinesAppend(p1 + g, Bullets(recipe.ingredients));
    WholeLinesAppend(p1 + g + Bullets(recipe.ingredients), t);
    WholeLinesAppend(p1 + g + Bullets(recipe.ingredients) + t, NumberedSteps(recipe.steps));
  }

  /** Read line by line, the refinement prompt quotes the instruction, shows the recipe's title, description,
      time and difficulty, lists every seasoning and ingredient as `- x` in order, numbers the steps from 1
      in order, and ends with the fixed format text. */
  lemma RefinePromptReadsBack(recipe: Recipe, instruction: string)
    requires NoNewline(instruction) && RecipeWithoutNewlines(recipe)
    ensures SplitLines(RefinePrompt(recipe, instruction))
         == [InstructionLine(instruction), "", ORIGINAL_HEADER,
             "**タイトル**: " + recipe.title,
             "**説明**: " + recipe.description,
             "**調理時間**: " + recipe.cookingTime,
             "**難易度**: " + recipe.difficulty,
             "", SEASONINGS_HEADER]
            + Bullets(recipe.seasonings)
            + ["", RECIPE_INGREDIENTS_HEADER] + Bullets(recipe.ingredients)
            + ["", STEPS_HEADER] + NumberedSteps(recipe.steps)
            + SplitLines(REFINE_FORMAT)
  {
    RefinePromptLinesAreLines(recipe, instruction);
    SplitJoinLines(RefinePromptLines(recipe, instruction), REFINE_FORMAT);
  }

  // ---------------------------------------------------------------------
  // Reading the reply: the pattern /```json\s*([\s\S]*?)\s*```/

  const OPEN_FENCE := "```json"
  const CLOSE_FENCE := "```"

  /** Where a match of the pattern sits: the opening fence at `open`, the closing fence at `close`. */
  datatype Fence = Fence(open: nat, close: nat)

  /** The reply holds an opening fence followed, somewhere after it, by a closing fence. */
  ghost predicate HasFencedBlock(text: string) {
    exists p, q :: OccursAt(text, OPEN_FENCE, p) && OccursAt(text, CLOSE_FENCE, q) && p + |OPEN_FENCE| <= q
  }

  /** No closing fence starts in `text[from..to]`. */
  predicate NoCloseBetween(text: string, from: int, to: int) {
    forall j :: from <= j < to ==> !OccursAt(text, CLOSE_FENCE, j)
  }

  /** The fences the pattern matches: the leftmost opening fence, and the first closing fence after it. */
  function FindFence(text: string): (r: Option<Fence>)
    ensures r.None? <==> !HasFencedBlock(text)
    ensures r.Some? ==> OccursAt(text, OPEN_FENCE, r.value.open)
    ensures r.Some? ==> forall j :: 0 <= j < r.value.open ==> !OccursAt(text, OPEN_FENCE, j)
    ensures r.Some? ==> r.value.open + |OPEN_FENCE| <= r.value.close && OccursAt(text, CLOSE_FENCE, r.value.close)
    ensures r.Some? ==> NoCloseBetween(text, r.value.open + |OPEN_FENCE|, r.value.close)
  {
    match IndexFrom(text, OPEN_FENCE, 0)
    case None => None
    case Some(p) =>
      match IndexFrom(text, CLOSE_FENCE, p + |OPEN_FENCE|)
      case None => None
      case Some(q) => Some(Fence(p, q))
  }

  /** The text between the fences of the match. */
  function Inner(text: string, f: Fence): string
    requires f.open + |OPEN_FENCE| <= f.close <= |text|
  {
    text[f.open + |OPEN_FENCE|..f.close]
  }

  /** Trimming the text between the nearest fences leaves no closing fence inside. */
  lemma TrimmedInnerHasNoFence(text: string, f: Fence)
    requires f.open + |OPEN_FENCE| <= f.close <= |text|
    requires NoCloseBetween(text, f.open + |OPEN_FENCE|, f.close)
    ensures !Contains(Trim(Inner(text, f)), CLOSE_FENCE)
  {
    NoOccurrenceInSlice(text, CLOSE_FENCE, f.open + |OPEN_FENCE|, f.close);
    NoOccurrenceInTrim(Inner(text, f), CLOSE_FENCE);
  }

  /** The capture between two fences: the shortest one, so the white space next to either fence is left out
      of it, and it cannot contain a closing fence. */
  function CaptureBetween(text: string, f: Fence): (body: string)
    requires f.open + |OPEN_FENCE| <= f.close <= |text|
    requires NoCloseBetween(text, f.open + |OPEN_FENCE|, f.close)
    ensures var inner := Inner(text, f); var k := TrimOffset(inner);
      && k + |body| <= |inner| && inner[k..k + |body|] == body
      && AllSpace(inner[..k]) && AllSpace(inner[k + |body|..])
    ensures body != [] ==> !IsSpace(body[0]) && !IsSpace(body[|body| - 1])
    ensures !Contains(body, CLOSE_FENCE)
  {
    TrimmedInnerHasNoFence(text, f);
    Trim(Inner(text, f))
  }

  /** `jsonMatch[1]`: the capture between the fences of the match; none exactly when there is no fenced block. */
  function CapturedJson(text: string): (r: Option<string>)
    ensures r.None? <==> !HasFencedBlock(text)
    ensures r.Some? ==> r.value == CaptureBetween(text, FindFence(text).value)
  {
    match FindFence(text)
    case None => None
    case Some(f) => Some(CaptureBetween(text, f))
  }

  /** `parseRecipesFromResponse` / `parseRecipeFromResponse`: decode the captured block when there is one,
      otherwise the whole reply; any failure, including a reply without text, becomes one fixed message. */
  function ParseReply<V>(text: Option<string>, decode: string -> Option<V>): (r: Result<V, string>)
    ensures r.Failure? ==> r.error == PARSE_FAILED
    ensures text.None? ==> r.Failure?
    ensures text.Some? && HasFencedBlock(text.value) ==>
      r == (match decode(CapturedJson(text.value).value) case Some(v) => Success(v) case None => Failure(PARSE_FAILED))
    ensures text.Some? && !HasFencedBlock(text.value) ==>
      r == (match decode(text.value) case Some(v) => Success(v) case None => Failure(PARSE_FAILED))
  {
    if text.None? then Failure(PARSE_FAILED)
    else
      var source := match CapturedJson(text.value) case Some(body) => body case None => text.value;
      match decode(source)
      case Some(v) => Success(v)
      case None => Failure(PARSE_FAILED)
  }

  /** Text without backticks holds no fence at all. */
  lemma NoBacktickNoFence(s: string)
    requires '`' !in s
    ensures !HasFencedBlock(s)
  {
    forall q ensures !OccursAt(s, CLOSE_FENCE, q) {
      if 0 <= q && q + |CLOSE_FENCE| <= |s| {
        assert s[q..q + |CLOSE_FENCE|][0] == s[q];
        assert s[q] in s;
      }
    }
  }

  /** The text a well-behaved reply consists of: prose, then the JSON text inside a fenced block, then anything. */
  function Wrapped(prose: string, json: string, after: string): string {
    prose + OPEN_FENCE + "\n" + json + "\n" + CLOSE_FENCE + after
  }

  /** No fence starts where the text has no backtick. */
  lemma NoFenceWithoutBacktick(text: string, pat: string, from: nat, to: nat)
    requires pat != [] && pat[0] == '`' && from <= to <= |text|
    requires '`' !in text[from..to]
    ensures forall j :: from <= j < to ==> !OccursAt(text, pat, j)
  {
    forall j | from <= j < to ensures !OccursAt(text, pat, j) {
      assert text[j] == text[from..to][j - from];
      if j + |pat| <= |text| {
        assert text[j..j + |pat|][0] == text[j];
      }
    }
  }

  /** Where the pieces of a wrapped reply sit. */
  lemma WrappedPieces(prose: string, json: string, after: string)
    ensures var text := Wrapped(prose, json, after); var p, q := |prose|, |prose| + |OPEN_FENCE| + |json| + 2;
      && q + |CLOSE_FENCE| <= |text|
      && text[..p] == prose
      && text[p..p + |OPEN_FENCE|] == OPEN_FENCE
      && text[p + |OPEN_FENCE|..q] == "\n" + json + "\n"
      && text[q..q + |CLOSE_FENCE|] == CLOSE_FENCE
  {
    var text := Wrapped(prose, json, after);
    var p, q := |prose|, |prose| + |OPEN_FENCE| + |json| + 2;
    assert text == prose + OPEN_FENCE + ("\n" + json + "\n") + CLOSE_FENCE + after;
  }

  /** The pattern matches an opening fence with no backtick before it and the next closing fence, when only
      text without backticks lies between them. */
  lemma FenceAt(text: string, p: nat, q: nat)
    requires p + |OPEN_FENCE| <= q && q + |CLOSE_FENCE| <= |text|
    requires OccursAt(text, OPEN_FENCE, p) && OccursAt(text, CLOSE_FENCE, q)
    requires '`' !in text[..p] && '`' !in text[p + |OPEN_FENCE|..q]
    ensures FindFence(text) == Some(Fence(p, q))
  {
    assert text[..p] == text[0..p];
    NoFenceWithoutBacktick(text, OPEN_FENCE, 0, p);
    NoFenceWithoutBacktick(text, CLOSE_FENCE, p + |OPEN_FENCE|, q);
    IndexFromFirst(text, OPEN_FENCE, 0, p);
    IndexFromFirst(text, CLOSE_FENCE, p + |OPEN_FENCE|, q);
  }

  /** The leftmost opening fence of a wrapped reply is the one after the prose, and the closing fence after the
      JSON text closes it. */
  lemma WrappedFence(prose: string, json: string, after: string)
    requires '`' !in prose && '`' !in json
    ensures FindFence(Wrapped(prose, json, after)) == Some(Fence(|prose|, |prose| + |OPEN_FENCE| + |json| + 2))
    ensures Inner(Wrapped(prose, json, after), Fence(|prose|, |prose| + |OPEN_FENCE| + |json| + 2)) == "\n" + json + "\n"
  {
    var text := Wrapped(prose, json, after);
    var p, q := |prose|, |prose| + |OPEN_FENCE| + |json| + 2;
    WrappedPieces(prose, json, after);
    assert '`' !in "\n" + json + "\n";
    FenceAt(text, p, q);
  }

  /** A JSON text wrapped in a fenced block, with any prose around it, reads back as that JSON text alone. */
  lemma FencedReplyReadsBack<V>(prose: string, json: string, after: string, decode: string -> Option<V>)
    requires '`' !in prose && '`' !in json
    requires json != [] ==> !IsSpace(json[0]) && !IsSpace(json[|json| - 1])
    ensures CapturedJson(Wrapped(prose, json, after)) == Some(json)
    ensures ParseReply(Some(Wrapped(prose, json, after)), decode) == ParseReply(Some(json), decode)
  {
    var text := Wrapped(prose, json, after);
    WrappedFence(prose, json, after);
    var f := Fence(|prose|, |prose| + |OPEN_FENCE| + |json| + 2);
    assert FindFence(text) == Some(f);
    assert Inner(text, f) == "\n" + json + "\n";
    TrimPadded("\n", json, "\n");
    NoBacktickNoFence(json);
  }

  /** How a request settles: a thrown error becomes the failure prefix plus its message; a reply is parsed,
      and a parse failure is reported under the same prefix. */
  function Settle<V>(prefix: string, reply: Reply, decode: string -> Option<V>): (r: Result<V, string>)
    ensures reply.Threw? ==> r == Failure(prefix + reply.message)
    ensures reply.Answered? ==> match ParseReply(reply.text, decode)
      case Success(v) => r == Success(v)
      case Failure(_) => r == Failure(prefix + PARSE_FAILED)
  {
    match reply
    case Threw(message) => Failure(prefix + message)
    case Answered(text) =>
      match ParseReply(text, decode)
      case Success(v) => Success(v)
      case Failure(e) => Failure(prefix + e)
  }

  // ---------------------------------------------------------------------
  // The service object

  /** `GeminiService`: the SDK client exists once a key has been accepted. The client is represented by the key it was
      created with; `sdkAccepts` stands for whether the SDK constructor returns instead of throwing, and `call` for
      `client.models.generateContent` on the network. */
  class Service {
    var client: Option<Json>

    /** The constructor initializes with the stored key when that key is truthy. */
    constructor(store: Storage.Store, sdkAccepts: bool)
      ensures client == if Truthy(store.GetApiKey()) && sdkAccepts then Some(store.GetApiKey()) else None
    {
      client := None;
      new;
      var apiKey := store.GetApiKey();
      if Truthy(apiKey) {
        var _ := Initialize(apiKey, sdkAccepts);
      }
    }

    /** `initialize(apiKey)`: a new client when the SDK accepts the key; a failure leaves the previous client in place. */
    method Initialize(apiKey: Json, sdkAccepts: bool) returns (ok: bool)
      modifies this
      ensures ok == sdkAccepts
      ensures client == if ok then Some(apiKey) else old(client)
      ensures IsReady() <==> ok || old(IsReady())
    {
      if sdkAccepts {
        client := Some(apiKey);
        ok := true;
      } else {
        ok := false;
      }
    }

    /** `isReady()`: a client has been created. */
    predicate IsReady()
      reads this
      ensures IsReady() <==> client.Some?
    {
      client.Some?
    }

    /** `generateRecipes`: refuses before initialization, otherwise sends the generation prompt to the fixed model
        and settles the reply under the generation prefix. */
    method GenerateRecipes(ingredients: seq<string>, constraints: Constraints,
                           call: (Json, Request) -> Reply, decode: string -> Option<seq<Recipe>>)
      returns (r: Result<seq<Recipe>, string>)
      ensures !IsReady() ==> r == Failure(NOT_READY_FOR_GENERATE)
      ensures IsReady() ==> r == Settle(GENERATE_FAILED, call(client.value, Request(GEMINI_MODEL, RecipePrompt(ingredients, constraints))), decode)
    {
      if !IsReady() {
        return Failure(NOT_READY_FOR_GENERATE);
      }
      var prompt := RecipePrompt(ingredients, constraints);
      var reply := call(client.value, Request(GEMINI_MODEL, prompt));
      r := Settle(GENERATE_FAILED, reply, decode);
    }

    /** `refineRecipe`: refuses before initialization, otherwise sends the refinement prompt to the fixed model
        and settles the reply under the refinement prefix. */
    method RefineRecipe(recipe: Recipe, instruction: string,
                        call: (Json, Request) -> Reply, decode: string -> Option<Recipe>)
      returns (r: Result<Recipe, string>)
      ensures !IsReady() ==> r == Failure(NOT_READY_FOR_REFINE)
      ensures IsReady() ==> r == Settle(REFINE_FAILED, call(client.value, Request(GEMINI_MODEL, RefinePrompt(recipe, instruction))), decode)
    {
      if !IsReady() {
        return Failure(NOT_READY_FOR_REFINE);
      }
      var prompt := RefinePrompt(recipe, instruction);
      var reply := call(client.value, Request(GEMINI_MODEL, prompt));
      r := Settle(REFINE_FAILED, reply, decode);
    }
  }
}
