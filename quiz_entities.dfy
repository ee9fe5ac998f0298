/**
 * The quiz side of the back end's entity graph: a quiz owns questions,
 * a question owns options, a quiz has at most one level and any number of
 * categories. The `add*`/`remove*` methods keep both ends of an association
 * in step the way Doctrine entities do: adding is guarded by `contains` and
 * sets the back-reference, removing clears the back-reference only if it
 * still points at the remover. Collections are sequences in insertion order.
 */
module QuizEntities {
  import opened Base
  import opened Seqs

  /** `sprintf('%s) %s', optionId, text)`: a `null` prints as nothing. */
  function OptionLabel(optionId: Option<string>, text: Option<string>): (shown: string)
    ensures |shown| == |optionId.GetOr("")| + 2 + |text.GetOr("")|
  {
    optionId.GetOr("") + ") " + text.GetOr("")
  }

  /** A label whose letter holds no `)` splits back at its first `)` into the letter and the text. */
  lemma OptionLabelSplits(optionId: Option<string>, text: Option<string>)
    requires ')' !in optionId.GetOr("")
    ensures var shown, k := OptionLabel(optionId, text), |optionId.GetOr("")|;
      shown[k] == ')' && ')' !in shown[..k]
      && shown[..k] == optionId.GetOr("") && shown[k + 2..] == text.GetOr("")
  {
    var shown, k := OptionLabel(optionId, text), |optionId.GetOr("")|;
    assert shown[..k] == optionId.GetOr("");
    assert shown[k + 2..] == text.GetOr("");
  }

  /** `$this->x ?? ''` */
  function OrEmpty(s: Option<string>): (r: string)
    ensures s.Some? ==> r == s.value
    ensures s.None? ==> r == ""
  {
    s.GetOr("")
  }

  class Quiz {
    var title: Option<string>
    var timePerQuestion: Option<int>
    var passingScore: Option<int>
    var modeRandom: bool
    var questions: seq<Question>
    var categoryQuestions: seq<CategoryQuestion>
    var level: LevelQuestion?

    /** Both associations in step: no repeats, every listed question points here, every listed category lists this quiz. */
    predicate Linked()
      reads this, questions, categoryQuestions
    {
      && NoDuplicates(questions) && NoDuplicates(categoryQuestions)
      && (forall q :: q in questions ==> q.quiz == this)
      && (forall c :: c in categoryQuestions ==> this in c.quizzes)
    }

    /** A new quiz: 30 seconds per question, 70% to pass, not random, nothing attached. */
    constructor()
      ensures title == None && timePerQuestion == Some(30) && passingScore == Some(70) && !modeRandom
      ensures questions == [] && categoryQuestions == [] && level == null
      ensures Linked()
    {
      title, timePerQuestion, passingScore, modeRandom := None, Some(30), Some(70), false;
      questions, categoryQuestions, level := [], [], null;
    }

    method SetTitle(t: string)
      modifies this`title
      ensures title == Some(t)
    {
      title := Some(t);
    }

    method SetTimePerQuestion(n: int)
      modifies this`timePerQuestion
      ensures timePerQuestion == Some(n)
    {
      timePerQuestion := Some(n);
    }

    method SetPassingScore(n: int)
      modifies this`passingScore
      ensures passingScore == Some(n)
    {
      passingScore := Some(n);
    }

    method SetModeRandom(b: bool)
      modifies this`modeRandom
      ensures modeRandom == b
    {
      modeRandom := b;
    }

    method SetLevel(l: LevelQuestion?)
      modifies this`level
      ensures level == l
    {
      level := l;
    }

    /** `getQuestionCount`: the size of the in-memory collection. */
    function QuestionCount(): (n: nat)
      reads this
      ensures n == |questions|
    {
      |questions|
    }

    function ToString(): string
      reads this
    {
      OrEmpty(title)
    }

    /** `addQuestion`: a new question is appended and pointed here; a listed one changes nothing. */
    method AddQuestion(q: Question)
      modifies this`questions, q`quiz
      ensures q in questions
      ensures old(q in questions) ==> questions == old(questions) && q.quiz == old(q.quiz)
      ensures old(q !in questions) ==> questions == old(questions) + [q] && q.quiz == this
      ensures QuestionCount() == old(QuestionCount()) + (if old(q in questions) then 0 else 1)
      ensures old(Linked()) ==> Linked() && q.quiz == this
    {
      if q !in questions {
        questions := questions + [q];
        q.SetQuiz(this);
      }
    }

    /** `removeQuestion`: the question leaves the list, and its back-reference is cleared if it still points here. */
    method RemoveQuestion(q: Question)
      modifies this`questions, q`quiz
      ensures questions == RemoveElement(old(questions), q)
      ensures q.quiz == if old(q in questions) && old(q.quiz) == this then null else old(q.quiz)
      ensures old(Linked()) ==> Linked() && q !in questions
    {
      var removed := q in questions;
      if old(Linked()) {
        RemoveElementNoDuplicates(questions, q);
      }
      questions := RemoveElement(questions, q);
      if removed && q.quiz == this {
        q.SetQuiz(null);
      }
    }

    /** `addCategoryQuestion`: a new category is appended and told to list this quiz; a listed one changes nothing. */
    method AddCategoryQuestion(c: CategoryQuestion)
      modifies this`categoryQuestions, c`quizzes
      ensures c in categoryQuestions
      ensures old(c in categoryQuestions) ==> categoryQuestions == old(categoryQuestions) && c.quizzes == old(c.quizzes)
      ensures old(c !in categoryQuestions) ==>
        (categoryQuestions == old(categoryQuestions) + [c]
         && c.quizzes == (if this in old(c.quizzes) then old(c.quizzes) else old(c.quizzes) + [this]))
      ensures old(Linked()) ==> Linked() && this in c.quizzes
    {
      if c !in categoryQuestions {
        categoryQuestions := categoryQuestions + [c];
        c.AddQuiz(this);
      }
    }

    /** `removeCategoryQuestion`: the category leaves the list and, only if it was listed, forgets this quiz. */
    method RemoveCategoryQuestion(c: CategoryQuestion)
      modifies this`categoryQuestions, c`quizzes
      ensures categoryQuestions == RemoveElement(old(categoryQuestions), c)
      ensures c.quizzes == if old(c in categoryQuestions) then RemoveElement(old(c.quizzes), this) else old(c.quizzes)
      ensures old(Linked()) ==> Linked() && c !in categoryQuestions
    {
      var removed := c in categoryQuestions;
      if old(Linked()) {
        RemoveElementNoDuplicates(categoryQuestions, c);
      }
      categoryQuestions := RemoveElement(categoryQuestions, c);
      if removed {
        c.RemoveQuiz(this);
      }
    }
  }

  class Question {
    var text: Option<string>
    var correctAnswer: Option<string>
    var explanation: Option<string>
    var quiz: Quiz?
    var options: seq<QuestionOption>

    /** No repeats, and every listed option points here. */
    predicate Linked()
      reads this, options
    {
      NoDuplicates(options) && forall o :: o in options ==> o.question == this
    }

    constructor()
      ensures text == None && correctAnswer == None && explanation == None && quiz == null && options == []
      ensures Linked()
    {
      text, correctAnswer, explanation, quiz, options := None, None, None, null, [];
    }

    method SetText(t: string)
      modifies this`text
      ensures text == Some(t)
    {
      text := Some(t);
    }

    method SetCorrectAnswer(a: string)
      modifies this`correctAnswer
      ensures correctAnswer == Some(a)
    {
      correctAnswer := Some(a);
    }

    /** Accepts `null`. */
    method SetExplanation(e: Option<string>)
      modifies this`explanation
      ensures explanation == e
    {
      explanation := e;
    }

    /** Accepts `null`, although the join column is not nullable. */
    method SetQuiz(q: Quiz?)
      modifies this`quiz
      ensures quiz == q
    {
      quiz := q;
    }

    function ToString(): string
      reads this
    {
      OrEmpty(text)
    }

    /** `addOption`: a new option is appended and pointed here; a listed one changes nothing. */
    method AddOption(o: QuestionOption)
      modifies this`options, o`question
      ensures o in options
      ensures old(o in options) ==> options == old(options) && o.question == old(o.question)
      ensures old(o !in options) ==> options == old(options) + [o] && o.question == this
      ensures old(Linked()) ==> Linked() && o.question == this
    {
      if o !in options {
        options := options + [o];
        o.SetQuestion(this);
      }
    }

    /** `removeOption`: the option leaves the list, and its back-reference is cleared if it still points here. */
    method RemoveOption(o: QuestionOption)
      modifies this`options, o`question
      ensures options == RemoveElement(old(options), o)
      ensures o.question == if old(o in options) && old(o.question) == this then null else old(o.question)
      ensures old(Linked()) ==> Linked() && o !in options
    {
      var removed := o in options;
      if old(Linked()) {
        RemoveElementNoDuplicates(options, o);
      }
      options := RemoveElement(options, o);
      if removed && o.question == this {
        o.SetQuestion(null);
      }
    }
  }

  class QuestionOption {
    var text: Option<string>
    var question: Question?
    var optionId: Option<string>

    constructor()
      ensures text == None && question == null && optionId == None
    {
      text, question, optionId := None, null, None;
    }

    method SetText(t: string)
      modifies this`text
      ensures text == Some(t)
    {
      text := Some(t);
    }

    /** Accepts `null`. */
    method SetQuestion(q: Question?)
      modifies this`question
      ensures question == q
    {
      question := q;
    }

    /** Accepts `null`. */
    method SetOptionId(id: Option<string>)
      modifies this`optionId
      ensures optionId == id
    {
      optionId := id;
    }

    function ToString(): string
      reads this
    {
      OptionLabel(optionId, text)
    }
  }

  class LevelQuestion {
    var name: Option<string>
    var quizzes: seq<Quiz>

    /** No repeats, and every listed quiz has this level. */
    predicate Linked()
      reads this, quizzes
    {
      NoDuplicates(quizzes) && forall q :: q in quizzes ==> q.level == this
    }

    constructor()
      ensures name == None && quizzes == []
      ensures Linked()
    {
      name, quizzes := None, [];
    }

    method SetName(n: string)
      modifies this`name
      ensures name == Some(n)
    {
      name := Some(n);
    }

    function ToString(): string
      reads this
    {
      OrEmpty(name)
    }

    /** `addQuiz`: a new quiz is appended and given this level; a listed one changes nothing. No other level is touched. */
    method AddQuiz(q: Quiz)
      modifies this`quizzes, q`level
      ensures q in quizzes
      ensures old(q in quizzes) ==> quizzes == old(quizzes) && q.level == old(q.level)
      ensures old(q !in quizzes) ==> quizzes == old(quizzes) + [q] && q.level == this
      ensures old(Linked()) ==> Linked() && q.level == this
    {
      if q !in quizzes {
        quizzes := quizzes + [q];
        q.SetLevel(this);
      }
    }

    /** `removeQuiz`: the quiz leaves the list, and loses its level only if that level is this one. */
    method RemoveQuiz(q: Quiz)
      modifies this`quizzes, q`level
      ensures quizzes == RemoveElement(old(quizzes), q)
      ensures q.level == if old(q in quizzes) && old(q.level) == this then null else old(q.level)
      ensures old(Linked()) ==> Linked() && q !in quizzes
    {
      var removed := q in quizzes;
      if old(Linked()) {
        RemoveElementNoDuplicates(quizzes, q);
      }
      quizzes := RemoveElement(quizzes, q);
      if removed && q.level == this {
        q.SetLevel(null);
      }
    }
  }

  class CategoryQuestion {
    var name: Option<string>
    var quizzes: seq<Quiz>

    constructor()
      ensures name == None && quizzes == []
    {
      name, quizzes := None, [];
    }

    method SetName(n: string)
      modifies this`name
      ensures name == Some(n)
    {
      name := Some(n);
    }

    function ToString(): string
      reads this
    {
      OrEmpty(name)
    }

    /** `addQuiz`: append unless listed; the quiz itself is not touched. */
    method AddQuiz(q: Quiz)
      modifies this`quizzes
      ensures quizzes == if q in old(quizzes) then old(quizzes) else old(quizzes) + [q]
      ensures NoDuplicates(old(quizzes)) ==> NoDuplicates(quizzes)
    {
      if q !in quizzes {
        quizzes := quizzes + [q];
      }
    }

    /** `removeQuiz`: drop the quiz if listed; the quiz itself is not touched. */
    method RemoveQuiz(q: Quiz)
      modifies this`quizzes
      ensures quizzes == RemoveElement(old(quizzes), q)
      ensures NoDuplicates(old(quizzes)) ==> NoDuplicates(quizzes) && q !in quizzes
    {
      if NoDuplicates(quizzes) {
        RemoveElementNoDuplicates(quizzes, q);
      }
      quizzes := RemoveElement(quizzes, q);
    }
  }

  /** `addQuiz(q)` then `removeQuiz(q)` on a level: `q` is no longer listed, and has no level unless another level already held it. */
  method AddThenRemoveQuiz(l: LevelQuestion, q: Quiz)
    requires NoDuplicates(l.quizzes)
    modifies l`quizzes, q`level
    ensures q !in l.quizzes
    ensures l.quizzes == RemoveElement(old(l.quizzes), q)
    ensures q.level == if old(q in l.quizzes) && old(q.level) != l then old(q.level) else null
  {
    l.AddQuiz(q);
    RemoveElementNoDuplicates(old(l.quizzes), q);
    if q !in old(l.quizzes) {
      AppendNoDuplicates(old(l.quizzes), q);
      RemoveAppended(old(l.quizzes), q);
    }
    RemoveElementNoDuplicates(l.quizzes, q);
    l.RemoveQuiz(q);
  }

  lemma {:induction false} RemoveAppended<T>(s: seq<T>, x: T)
    requires x !in s
    ensures RemoveElement(s + [x], x) == s
    decreases |s|
  {
    if s != [] {
      assert (s + [x])[1..] == s[1..] + [x];
      RemoveAppended(s[1..], x);
    }
  }

  /**
   * Giving a quiz a second level leaves it listed by the first: only the owning side
   * (`quiz.level`) follows, so the first level's collection is stale until it is reloaded.
   */
  method SecondLevelLeavesFirstStale(l1: LevelQuestion, l2: LevelQuestion, q: Quiz)
    requires l1 != l2 && q !in l1.quizzes && q !in l2.quizzes
    modifies l1`quizzes, l2`quizzes, q`level
    ensures q in l1.quizzes && q in l2.quizzes && q.level == l2
    ensures !l1.Linked()
  {
    l1.AddQuiz(q);
    l2.AddQuiz(q);
    assert q in l1.quizzes && q.level != l1;
  }
}
