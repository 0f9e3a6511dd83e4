/** The reply texts of the core, character for character as the source
    writes them; a `{...}` hole of an f-string becomes a parameter. */
module Replies {
  import opened Text

  /** The four greetings without a name (`_greet`). */
  const Greetings: seq<string> := [
      "Привет! Я Nix AI, ваш цифровой помощник в Telegram! 👋",
      "Здравствуйте! Рад видеть вас здесь!",
      "Приветствую! Готов помочь вам с любыми вопросами.",
      "Привет! Как я могу вам помочь сегодня?"
    ]

  /** The three greetings that use the first name (`_greet`). */
  function NameGreetings(name: string): (r: seq<string>)
    ensures |r| == 3
  {
    ["С возвращением, " + name + "! Как ваши дела?", "Рад вас снова видеть, " + name + "!", "Привет, " + name + "! Чем могу помочь?"]
  }

  /** The four farewells (`_goodbye`). */
  const Farewells: seq<string> := [
      "До свидания! Буду рад помочь снова.",
      "Пока! Возвращайтесь, если понадобится помощь.",
      "Всего хорошего! 👋",
      "До встречи! Не забывайте меня!"
    ]

  function NamedFarewell(name: string, farewell: string): string {
    "Пока, " + name + "! " + farewell
  }

  const HowAreYouReplies: seq<string> := [
      "У меня все отлично! Спасибо, что спросили. 😊",
      "Работаю в штатном режиме. Как ваши дела?",
      "Прекрасно! Готов помогать вам с любыми вопросами.",
      "Как у цифрового помощника, у меня всегда хорошо!"
    ]

  const ThankYouReplies: seq<string> := [
      "Всегда пожалуйста! 😊",
      "Рад был помочь!",
      "Обращайтесь ещё!",
      "Это моя работа в Telegram!"
    ]

  /** `_about_me`, from the facts `имя`, `версия` and `цель`. */
  function AboutMeText(name: string, version: string, goal: string): string {
    "🤖 Я " + name + ", версия " + version + ".\n"
    + "🎯 " + goal + "\n"
    + "💾 Создан на Python с использованием aiogram!\n"
    + "📚 Я учусь на каждом нашем диалоге."
  }

  /** `_help`: the triple-quoted text, its leading newline and trailing indentation included. */
  const HelpText: string :=
    "\n"
    + "🤖 *Nix AI - Telegram Edition*\n"
    + "\n"
    + "📋 *Что я умею:*\n"
    + "\n"
    + "• Приветствоваться и прощаться\n"
    + "• Отвечать на вопросы (и учиться, если не знаю ответа)\n"
    + "• Запоминать информацию\n"
    + "• Рассказывать о себе\n"
    + "• Показывать время и дату\n"
    + "\n"
    + "🌤️ *Погода:*\n"
    + "Напиши \"погода\" или нажми кнопку, затем укажи город\n"
    + "\n"
    + "💾 *Обучение:*\n"
    + "Если я не знаю ответа - я спрошу у вас и запомню правильный ответ\n"
    + "\n"
    + "📊 *Статистика:*\n"
    + "Узнай сколько я уже знаю и сколько мы общались\n"
    + "\n"
    + "🎮 *Дополнительно:*\n"
    + "• Курсы валют\n"
    + "• Анекдоты\n"
    + "• Новости (в разработке)\n"
    + "\n"
    + "💡 *Просто общайтесь со мной - я научусь!*\n"
    + "        "

  /** `_time`: the clock reading is formatted outside the model. */
  function TimeText(clock: string): string {
    "🕐 Сейчас " + clock
  }

  function DateText(date: string): string {
    "📅 Сегодня " + date
  }

  function RememberedText(fact: string): string {
    "✅ Запомнил: '" + fact + "'. Буду помнить об этом! 🧠"
  }

  const RememberUsageText: string := "Пожалуйста, укажи, что именно запомнить. Например: 'запомни, что Земля круглая'"

  function RecalledText(fact: string): string {
    "📚 Я помню, что: " + fact
  }

  const RecallEmptyText: string := "Я еще мало что знаю. Расскажи мне что-нибудь интересное!"

  const ClearMemoryText: string := "Для очистки памяти используй команду /clearmemory"

  /** `_how_i_learn`. */
  function HowILearnText(autoCorrection: bool, learnedQna: int, corrections: int, totalMessages: int, totalUsers: int): string {
    "🧠 *Как я учусь:*\n"
    + "• Автообучение: " + (if autoCorrection then "ВКЛ" else "ВЫКЛ") + "\n"
    + "• Выучено ответов: " + IntText(learnedQna) + "\n"
    + "• Получено исправлений: " + IntText(corrections) + "\n"
    + "• Всего сообщений: " + IntText(totalMessages) + "\n"
    + "• Всего пользователей: " + IntText(totalUsers) + "\n\n"
    + "Когда я не знаю ответа, я спрашиваю у вас! 💡"
  }

  const WeatherHandlerText: string := "🌤️ Напиши название города для получения погоды, например: 'Москва' или 'погода Москва'"

  /** `_stats_handler`: global counters, then the acting user's. */
  function StatsText(totalMessages: int, learnedQna: int, totalUsers: int,
                     userMessages: int, userContributions: int, userConversations: int): string {
    var userStats := "\n📊 *Твоя статистика:*\n"
      + "• Сообщений: " + IntText(userMessages) + "\n"
      + "• Внесено знаний: " + IntText(userContributions) + "\n"
      + "• Диалогов: " + IntText(userConversations);
    "📈 *Глобальная статистика:*\n"
    + "• Всего сообщений: " + IntText(totalMessages) + "\n"
    + "• Выучено ответов: " + IntText(learnedQna) + "\n"
    + "• Всего пользователей: " + IntText(totalUsers) + userStats
  }

  const CurrencyText: string := "💱 Функция курсов валют в разработке. Скоро будет доступно!"

  const NewsText: string := "📰 Функция новостей в разработке. Скоро будет доступно!"

  const Jokes: seq<string> := ["В разработке"]

  function JokeText(joke: string): string {
    "😂 " + joke
  }

  const NoApiKeyText: string := "🌤️ Для работы погодного сервиса нужен API ключ OpenWeatherMap.\nДобавьте его в файл weather_config.json"

  function CityNotFoundText(city: string): string {
    "🌍 Город '" + city + "' не найден. Проверьте правильность написания."
  }

  function StatusErrorText(status: int): string {
    "⚠️ Ошибка получения погоды. Код ошибки: " + IntText(status)
  }

  function FailureText(detail: string): string {
    "⚠️ Произошла ошибка при получении погоды: " + detail
  }

  const RainIcon: string := "🌧️"
  const SnowIcon: string := "❄️"
  const CloudIcon: string := "☁️"
  const ClearIcon: string := "☀️"
  const FogIcon: string := "🌫️"
  const StormIcon: string := "⛈️"
  const DefaultIcon: string := "🌤️"

  /** The confirmation of a stored correction. */
  function CorrectionText(question: string, answer: string): string {
    "✅ Отлично! Запомнил: на вопрос '" + question + "' нужно отвечать: '" + answer + "'"
  }

  const CityPromptText: string := "🌤️ Напиши название города для получения погоды"

  /** The teach-me request. */
  function TeachText(message: string): string {
    "🤔 Я не уверен в ответе на вопрос: '" + message + "'. Можешь подсказать правильный ответ?"
  }

  /** The five fallback phrasings (`_get_fallback_response`). */
  function Fallbacks(message: string): (r: seq<string>)
    ensures |r| == 5
  {
    [
      "Извини, я не совсем понял вопрос: '" + message + "'. Можешь переформулировать?",
      "Интересно... '" + message + "'. Давай поговорим о чем-нибудь другом?",
      "Пока я не готов ответить на этот вопрос. Спроси что-нибудь другое!",
      "Хм, мне нужно подумать над этим. А пока могу ответить на другие вопросы!",
      "Я еще учусь! Спроси меня о чем-то другом, например о погоде или времени."
    ]
  }
}
