/** The fixed reply texts of the bot (HTML markup as sent to the chat). */
module Strings {
  const InnerErrorMsg := "<b>Внутреняя ошибка!</b>\n\nПопробуйте воспользоваться чат-ботом позже \U{1F635}"

  const StartMsg := "<b>Добро пожаловать!</b> \U{1F44B}\n\n"
    + "Этот бот предназначен для генерации изображений с использованием моделей DALL-E 2 и DALL-E 3.\n\n"
    + "Пожалуйста, ознакомьтесь с доступными командами с помощью <i>/help</i>."

  const HelpMsg := "<b>\U{1F4DC} Доступные команды:</b>\n\n"
    + "<i>/help</i> - показать список доступных команд \U{1F4CB}\n\n"
    + "<i>/generate</i> - сгенерировать изображение с помощью DALL-E \U{1F916} \n\n"
    + "<i>/settings</i> - настройка параметров генерации изображения \U{2699}\U{FE0F}\n\n"

  const SendPromptMsg := "<b>Введите текст для генерации \U{270F}\U{FE0F}</b>"
  const SendPromptErrorMsg := "<b>Неверный ввод данных!</b>\n\nОтправьте текст еще раз \U{1F504}"
  const GeneratingMsg := "<i>Подождите окончание генерации \U{231B}</i>"

  const ChooseModelMsg := "<b>Выберите модель \U{1F916}</b>\n\nГенерация: <i>/generate</i>"
  const ChooseSizeMsg := "<b>Выберите размер изображения \U{1F5BC}\U{FE0F}</b>\n\nГенерация: <i>/generate</i>"
  const ChooseQuantityMsg := "<b>Выберите количество \U{1F522}</b>\n\nГенерация: <i>/generate</i>"
}
