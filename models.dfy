/**
 * The two stored records, `UserModel` and `SettingsModel`, and their `create` factories.
 * Storage columns that the dialog never reads (the settings row id, the join date) are
 * not modelled. The model and size are stored as plain strings, as in the table: nothing
 * in the store ties the size to the model.
 */
module Models {
  import Gpt

  datatype Settings = Settings(userId: int, model: string, size: string, quantity: int)

  datatype User = User(userId: int, name: string, settings: Settings)

  /** The column defaults of the `Settings` table. */
  const ColumnDefaultModel: string := Gpt.Model.DallE2.Value()
  const ColumnDefaultSize: string := Gpt.Size.S256.Value()
  const ColumnDefaultQuantity: int := 1

  /** `SettingsModel.create`: a settings record for `userId`; the omitted arguments take the defaults. */
  function CreateSettings(userId: int, model: string := Gpt.Model.DallE2.Value(),
                          size: string := Gpt.Size.S256.Value(), quantity: int := 1): (s: Settings)
    ensures s.userId == userId
    ensures s.model == model && s.size == size && s.quantity == quantity
  {
    Settings(userId, model, size, quantity)
  }

  /** `UserModel.create`: a user with the given id and name, owning default settings for the same id. */
  function CreateUser(userId: int, name: string): (u: User)
    ensures u.userId == userId && u.name == name
    ensures u.settings.userId == userId
    ensures u.settings.model == "dall-e-2" && u.settings.size == "256x256" && u.settings.quantity == 1
  {
    User(userId, name, CreateSettings(userId))
  }

  /** The defaults of `create` agree with the column defaults, and spell the enum values. */
  lemma CreateDefaultsMatchColumns(userId: int)
    ensures CreateSettings(userId) == Settings(userId, ColumnDefaultModel, ColumnDefaultSize, ColumnDefaultQuantity)
    ensures ColumnDefaultModel == "dall-e-2" && ColumnDefaultSize == "256x256"
  {
  }
}
