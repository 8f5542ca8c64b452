/** Addresses and selectors of the design application's web pages, as the bot hard-codes them. */
module Site {
  const LOGIN_URL := "https://www.figma.com/login"
  const RECENT_URL := "https://www.figma.com/files/recent"
  const FILE_URL_BASE := "https://www.figma.com/file/"
  const PROJECT_URL_BASE := "https://www.figma.com/files/project/"
  const TEAM_URL_BASE := "https://www.figma.com/files/team/"

  const EMAIL_INPUT := "form#auth-view-page > input[name=\"email\"]"
  const PASSWORD_INPUT := "form#auth-view-page > input[name=\"password\"]"
  const SUBMIT_BUTTON := "form#auth-view-page > button[type=\"submit\"]"
  /** Class-name fragment the login form puts on an input it rejected. */
  const INVALID_INPUT := "invalidInput"

  const PALETTE_SEARCH := "[class*='quick_actions--search']"
  const PALETTE_RESULT := "[class*='quick_actions--result']"
}
