/** The conversation script of the demo: the `Message` record and the fixed
    56-step array `chatFlow` of src/App.tsx, plus `Played`, the part of a
    script prefix that ever becomes visible in the chat (everything but the
    `call` steps). */
module Script {
  import opened Wrappers

  /** The `type` tag of a message. */
  datatype Kind = Bot | User | Buttons | Call | Stars | MultiChoice | LinkText

  /** One scripted message. `buttons` and `options` are empty when the source
      leaves them undefined. No scripted step sets `showCheckmark`, so it is
      not a field here. */
  datatype Step = Step(
    id: int,
    kind: Kind,
    content: string,
    buttons: seq<string>,
    options: seq<string>,
    allowMultiple: Option<bool>,
    autoSelectStars: Option<int>)

  function Text(id: int, kind: Kind, content: string): Step {
    Step(id, kind, content, [], [], None, None)
  }

  function ButtonsStep(id: int, labels: seq<string>): Step {
    Step(id, Buttons, "", labels, [], None, None)
  }

  function CallStep(id: int): Step {
    Step(id, Call, "", [], [], None, None)
  }

  function StarsStep(id: int, autoSelect: Option<int>): Step {
    Step(id, Stars, "", [], [], None, autoSelect)
  }

  function MultiChoiceStep(id: int, options: seq<string>, allowMultiple: Option<bool>): Step {
    Step(id, MultiChoice, "", [], options, allowMultiple, None)
  }

  /** The script `chatFlow`, in order, written as the sections of the
      conversation it runs through. */
  const ChatFlow: seq<Step> :=
    Opening + Symptoms + MoreSymptoms + Advice + AdminCall
    + Booking + LabRating + DoctorRating + ServiceRating + Closing

  /** Steps 1..6: the greeting and the consent to data processing. */
  const Opening: seq<Step> := [
    Text(1, Bot, "Здравствуйте 👋\nЯ AIDADOC — цифровой консьерж клиники ALTA\n\nЯ помогу понять:\n• насколько ваше состояние срочное\n• к какому врачу лучше обратиться\n• и какие обследования могут быть полезны\n\nЭто не диагноз, а дружеская медицинская навигация 🩺✨"),
    ButtonsStep(2, ["✅ Помогите", "⏳ В другой раз"]),
    Text(3, User, "✅ Помогите"),
    Text(4, LinkText, "Перед началом — пара формальностей\n\nВаши ответы нужны только для того, чтобы быстро и аккуратно направить вас к нужному специалисту\nВсе данные защищены и используются только в медицинских целях\n\n☑️ Я соглашаюсь с условиями обработки данных и дистанционной консультации"),
    ButtonsStep(5, ["Да, согласен"]),
    Text(6, User, "Да, согласен")
  ]

  /** Steps 7..14: the complaint, the kind of cough and its duration. */
  const Symptoms: seq<Step> := [
    Text(7, Bot, "Что вас беспокоит?"),
    Text(8, User, "Кашель"),
    Text(9, Bot, "Понимаю. Давайте разберёмся чуть подробнее\n\nКакой у вас кашель?"),
    ButtonsStep(10, ["• Сухой", "• Влажный", "• С прожилками крови"]),
    Text(11, User, "Сухой"),
    Text(12, Bot, "Кашель длится меньше недели?"),
    ButtonsStep(13, ["• Да", "• Нет, больше месяца"]),
    Text(14, User, "Да")
  ]

  /** Steps 15..23: fever, cold symptoms and weakness. */
  const MoreSymptoms: seq<Step> := [
    Text(15, Bot, "Температура выше 38 °C?"),
    ButtonsStep(16, ["• Да", "• Нет"]),
    Text(17, User, "Нет"),
    Text(18, Bot, "Есть насморк или заложенность носа?"),
    ButtonsStep(19, ["• Да", "• Нет"]),
    Text(20, User, "Да"),
    Text(21, Bot, "Появилась слабость, головная боль или ломота?"),
    ButtonsStep(22, ["• Да", "• Нет"]),
    Text(23, User, "Да")
  ]

  /** Steps 24..27: the preliminary assessment and the hand-over to the administrator. */
  const Advice: seq<Step> := [
    Text(24, Bot, "Спасибо! Проанализировала ваши ответы 🙌\n\nПредварительно — симптомы похожи на ОРВИ\n⚠️ Признаков опасного состояния сейчас нет\n\nЧто рекомендуем:\n🛌 Отдых и восстановление\n💧 Тёплое питьё\n🌡️ Контроль температуры\n💊 Симптоматическая терапия — подскажет врач\n\nЧтобы подтвердить состояние и ускорить назначение лечения, полезно сдать:\n🧪 Общий анализ крови + СОЭ\n\nДальше лучше всего:\n👨‍⚕️ Консультация терапевта в ближайшие 1–2 дня"),
    ButtonsStep(25, ["📅 Сразу записаться к терапевту", "🧾 Сначала сдать анализы, потом — к терапевту", "❓ Задать вопрос администратору"]),
    Text(26, User, "🧾 Сначала сдать анализы, потом — к терапевту"),
    Text(27, Bot, "Отличный план 👌\n\nСейчас администратор свяжется с вами, чтобы подобрать удобное время. Обычно это занимает не больше 10 минут 👩‍⚕️")
  ]

  /** Step 28: the simulated incoming call. */
  const AdminCall: seq<Step> := [
    CallStep(28)
  ]

  /** Steps 29..32: the booked appointments. */
  const Booking: seq<Step> := [
    Text(29, Bot, "Ваша запись:\n\n📍 Лаборатория — 12 декабря, 09:00\n👨‍⚕️ Терапевт — 13 декабря, 14:15"),
    ButtonsStep(30, ["⏰ Напомнить заранее", "ℹ️ Подготовка к визиту", "✅ Всё верно, я приду"]),
    Text(31, User, "✅ Всё верно, я приду"),
    Text(32, Bot, "Отлично! Будем рады помочь вам восстановиться 🙏\nЖелаю скорейшего выздоровления 🌿")
  ]

  /** Steps 33..41: the follow-up: rating the laboratory and what was liked. */
  const LabRating: seq<Step> := [
    Text(33, Bot, "Мы надеемся, что вы быстро идёте на поправку 💙\nПоделитесь, пожалуйста, как все прошло"),
    ButtonsStep(34, ["⭐ Оценить", "⏳ В другой раз"]),
    Text(35, User, "⭐ Оценить"),
    Text(36, Bot, "Как вы оцениваете работу лаборатории?"),
    StarsStep(37, Some(4)),
    Text(38, User, "⭐⭐⭐⭐☆"),
    Text(39, Bot, "Спасибо! А что понравилось больше всего? (можно выбрать несколько)"),
    MultiChoiceStep(40, ["• Быстрая сдача анализов", "• Вежливый персонал", "• Удобное время", "• Чистота и комфорт", "• Другое (написать)", "• Пропустить"], Some(true)),
    Text(41, User, "• Быстрая сдача анализов\n• Вежливый персонал")
  ]

  /** Steps 42..47: rating the doctor and the optional review. */
  const DoctorRating: seq<Step> := [
    Text(42, Bot, "А как прошла консультация врача?"),
    StarsStep(43, Some(5)),
    Text(44, User, "⭐⭐⭐⭐⭐"),
    Text(45, Bot, "Спасибо 💙\nХотите добавить короткий отзыв? (не обязательно)"),
    ButtonsStep(46, ["• Да, написать", "• Всё отлично 🙌", "• Нет, пропустить"]),
    Text(47, User, "• Всё отлично 🙌")
  ]

  /** Steps 48..50: rating the assistant itself. */
  const ServiceRating: seq<Step> := [
    Text(48, Bot, "И ещё маленький вопрос 😊\n\nКак вам помощь AIDADOC?"),
    MultiChoiceStep(49, ["⭐ Плохо", "⭐⭐ Нормально", "⭐⭐⭐ Удобно", "⭐⭐⭐⭐ Отлично", "⭐⭐⭐⭐⭐ Очень помог(ла)"], Some(false)),
    Text(50, User, "⭐⭐⭐⭐⭐ Очень помог(ла)")
  ]

  /** Steps 51..56: whether the advice matched the doctor, and goodbye. */
  const Closing: seq<Step> := [
    Text(51, Bot, "Спасибо! Это помогает нам становиться лучше 🙏"),
    Text(52, Bot, "И чтобы мы точнее подбирали маршруты:\n\nНаши рекомендации совпали с тем, что сказал врач?"),
    ButtonsStep(53, ["• Да, полностью ✅", "• В целом да", "• Частично", "• Нет, отличались"]),
    Text(54, User, "• Да, полностью ✅"),
    Text(55, Bot, "Здорово! Очень рады 🎉"),
    Text(56, Bot, "Выздоравливайте 🌿\n\nЕсли понадобится помощь снова — просто напишите «Начать» 💬\n\nМы всегда рядом 💙")
  ]

  /** The steps of `s` that are appended to the transcript when played: all
      but the `call` steps, in script order. Defined from the back, so that
      revealing one more step extends it at the end. */
  function Played(s: seq<Step>): (r: seq<Step>)
    ensures |r| <= |s|
    ensures forall m :: m in r <==> m in s && m.kind != Call
  {
    if s == [] then []
    else if s[|s| - 1].kind == Call then Played(s[..|s| - 1])
    else Played(s[..|s| - 1]) + [s[|s| - 1]]
  }

  /** Revealing one more step extends `Played` by that step, unless it is a
      `call` step. */
  lemma PlayedSnoc(s: seq<Step>, x: Step)
    ensures Played(s + [x]) == if x.kind == Call then Played(s) else Played(s) + [x]
  {
    assert (s + [x])[..|s|] == s;
  }

  lemma {:induction false} PlayedConcat(a: seq<Step>, b: seq<Step>)
    ensures Played(a + b) == Played(a) + Played(b)
    decreases |b|
  {
    if b == [] {
      assert a + b == a;
    } else {
      var b', x := b[..|b| - 1], b[|b| - 1];
      assert b == b' + [x];
      calc {
        Played(a + b);
        { assert a + b == (a + b') + [x]; }
        Played((a + b') + [x]);
        { PlayedSnoc(a + b', x); }
        if x.kind == Call then Played(a + b') else Played(a + b') + [x];
        { PlayedConcat(a, b'); }
        if x.kind == Call then Played(a) + Played(b') else (Played(a) + Played(b')) + [x];
        { PlayedSnoc(b', x); }
        Played(a) + Played(b);
      }
    }
  }

  /** A script without `call` steps is played in full. */
  lemma {:induction false} PlayedCallFree(s: seq<Step>)
    requires CallFree(s)
    ensures Played(s) == s
  {
    if s != [] {
      var s' := s[..|s| - 1];
      assert s == s' + [s[|s| - 1]];
      PlayedCallFree(s');
    }
  }

  /** The steps of `s` carry the ids k, k+1, ... in order. */
  predicate NumberedFrom(s: seq<Step>, k: int) {
    forall i :: 0 <= i < |s| ==> s[i].id == k + i
  }

  predicate CallFree(s: seq<Step>) {
    forall i :: 0 <= i < |s| ==> s[i].kind != Call
  }

  /** `s[k]` is the one `call` step of `s`; when `k` is out of range, `s`
      has none. */
  predicate CallOnlyAt(s: seq<Step>, k: int) {
    forall i :: 0 <= i < |s| ==> (s[i].kind == Call <==> i == k)
  }

  /** `s` is a section of `n` call-free steps numbered from `k`. */
  predicate Section(s: seq<Step>, n: int, k: int) {
    |s| == n && NumberedFrom(s, k) && CallFree(s)
  }

  lemma OpeningShape()
    ensures Section(Opening, 6, 1) && Opening[0].kind == Bot
  {
  }

  lemma SymptomsShape()
    ensures Section(Symptoms, 8, 7)
  {
  }

  lemma MoreSymptomsShape()
    ensures Section(MoreSymptoms, 9, 15)
  {
  }

  lemma AdviceShape()
    ensures Section(Advice, 4, 24)
  {
  }

  lemma AdminCallShape()
    ensures |AdminCall| == 1 && AdminCall[0].id == 28 && AdminCall[0].kind == Call
  {
  }

  lemma BookingShape()
    ensures Section(Booking, 4, 29)
  {
  }

  lemma LabRatingShape()
    ensures Section(LabRating, 9, 33)
  {
  }

  lemma DoctorRatingShape()
    ensures Section(DoctorRating, 6, 42)
  {
  }

  lemma ServiceRatingShape()
    ensures Section(ServiceRating, 3, 48)
  {
  }

  lemma ClosingShape()
    ensures Section(Closing, 6, 51)
  {
  }

  /** Numbering and the position of the call step carry over to `a + b`
      when `b` is numbered on from where `a` stops. */
  lemma AppendShape(a: seq<Step>, b: seq<Step>, k: int)
    requires NumberedFrom(a, 1) && CallOnlyAt(a, k)
    requires NumberedFrom(b, |a| + 1) && CallOnlyAt(b, k - |a|)
    ensures NumberedFrom(a + b, 1) && CallOnlyAt(a + b, k)
  {
  }

  /** Ten sections laid out as those of `chatFlow` (the fifth a single call
      step, the others call-free) make a script of 56 steps numbered 1..56
      whose only call step is the 28th. */
  lemma {:induction false} Assemble(o: seq<Step>, sy: seq<Step>, m: seq<Step>, a: seq<Step>, c: seq<Step>,
                                    b: seq<Step>, l: seq<Step>, d: seq<Step>, r: seq<Step>, e: seq<Step>)
    requires Section(o, 6, 1) && o[0].kind == Bot
    requires Section(sy, 8, 7) && Section(m, 9, 15) && Section(a, 4, 24)
    requires |c| == 1 && c[0].id == 28 && c[0].kind == Call
    requires Section(b, 4, 29) && Section(l, 9, 33) && Section(d, 6, 42)
    requires Section(r, 3, 48) && Section(e, 6, 51)
    ensures var f := o + sy + m + a + c + b + l + d + r + e;
      |f| == 56 && NumberedFrom(f, 1) && CallOnlyAt(f, 27) && f[0].kind == Bot
  {
    AppendShape(o, sy, 27);
    AppendShape(o + sy, m, 27);
    AppendShape(o + sy + m, a, 27);
    AppendShape(o + sy + m + a, c, 27);
    var x := o + sy + m + a + c;
    AppendShape(x, b, 27);
    AppendShape(x + b, l, 27);
    AppendShape(x + b + l, d, 27);
    AppendShape(x + b + l + d, r, 27);
    AppendShape(x + b + l + d + r, e, 27);
  }

  /** The ids of `chatFlow` run 1..56 in order, it opens with a bot message,
      and its one `call` step is the 28th (index 27). */
  lemma ChatFlowShape()
    ensures |ChatFlow| == 56 && NumberedFrom(ChatFlow, 1) && CallOnlyAt(ChatFlow, 27)
    ensures ChatFlow[0].kind == Bot
  {
    OpeningShape();
    SymptomsShape();
    MoreSymptomsShape();
    AdviceShape();
    AdminCallShape();
    BookingShape();
    LabRatingShape();
    DoctorRatingShape();
    ServiceRatingShape();
    ClosingShape();
    Assemble(Opening, Symptoms, MoreSymptoms, Advice, AdminCall,
             Booking, LabRating, DoctorRating, ServiceRating, Closing);
  }

  /** A script with one `call` step plays as everything around it. */
  lemma PlayedAroundCall(a: seq<Step>, c: Step, b: seq<Step>)
    requires CallFree(a) && c.kind == Call && CallFree(b)
    ensures Played(a + [c] + b) == a + b
  {
    PlayedConcat(a + [c], b);
    PlayedSnoc(a, c);
    PlayedCallFree(a);
    PlayedCallFree(b);
  }

  /** The number of `call` steps in `s`. */
  function Calls(s: seq<Step>): (n: nat)
    ensures n <= |s|
    ensures n == 0 <==> CallFree(s)
  {
    if s == [] then 0 else (if s[0].kind == Call then 1 else 0) + Calls(s[1..])
  }

  lemma {:induction false} CallsConcat(a: seq<Step>, b: seq<Step>)
    ensures Calls(a + b) == Calls(a) + Calls(b)
  {
    if a == [] {
      assert a + b == b;
    } else {
      assert (a + b)[1..] == a[1..] + b;
      CallsConcat(a[1..], b);
    }
  }

  /** A script whose only `call` step is `s[k]` has one call, and plays as
      everything before it followed by everything after it. */
  lemma OneCallPlayed(s: seq<Step>, k: int)
    requires 0 <= k < |s| && CallOnlyAt(s, k)
    ensures Played(s) == s[..k] + s[k + 1..]
    ensures Calls(s) == 1
  {
    assert s == s[..k] + [s[k]] + s[k + 1..];
    assert CallFree(s[..k]) && CallFree(s[k + 1..]);
    PlayedAroundCall(s[..k], s[k], s[k + 1..]);
    CallsConcat(s[..k] + [s[k]], s[k + 1..]);
    CallsConcat(s[..k], [s[k]]);
  }
}
